/**
 The wakeup inbox of a scheduler (pth_sched.c): a lock-free stack that any OS thread pushes onto with
 a compare-and-swap and that the home scheduler empties with one exchange. The drain reverses the
 chain it took, applies the messages in that order and frees them.
 */
module InboxDrain {
  import opened Basics

  class Message {
    var next: Message?
    const payload: int

    constructor (payload: int)
      ensures this.payload == payload && next == null
    {
      this.payload := payload;
      next := null;
    }
  }

  /** `chain` is the sequence of messages reached from `m`. */
  ghost predicate IsChain(m: Message?, chain: seq<Message>)
    reads chain
  {
    && NoDup(chain)
    && m == (if chain == [] then null else chain[0])
    && (forall i {:trigger chain[i].next} :: 0 <= i < |chain| ==>
          chain[i].next == if i + 1 < |chain| then chain[i + 1] else null)
  }

  ghost function Payloads(chain: seq<Message>): (r: seq<int>)
    ensures |r| == |chain| && forall i :: 0 <= i < |r| ==> r[i] == chain[i].payload
  {
    seq(|chain|, i requires 0 <= i < |chain| => chain[i].payload)
  }

  /** pth_gsched_drain, first loop: reverse the chain in place. */
  method ReverseChain(head: Message?, ghost chain: seq<Message>) returns (rev: Message?)
    requires IsChain(head, chain)
    modifies chain
    ensures IsChain(rev, Reverse(chain))
  {
    var m := head;
    rev := null;
    ghost var k := 0;
    while m != null
      invariant 0 <= k <= |chain|
      invariant m == if k < |chain| then chain[k] else null
      invariant rev == if k == 0 then null else chain[k - 1]
      invariant forall i {:trigger chain[i].next} :: k <= i < |chain| ==>
                  chain[i].next == if i + 1 < |chain| then chain[i + 1] else null
      invariant forall i {:trigger chain[i].next} :: 0 <= i < k ==>
                  chain[i].next == if i == 0 then null else chain[i - 1]
      decreases |chain| - k
    {
      var next := m.next;
      m.next := rev;
      rev := m;
      m := next;
      k := k + 1;
    }
    ghost var r := Reverse(chain);
    forall i, j | 0 <= i < j < |r| ensures r[i] != r[j] {
      assert chain[|r| - 1 - j] != chain[|r| - 1 - i];
    }
    forall i | 0 <= i < |r| ensures r[i].next == if i + 1 < |r| then r[i + 1] else null {
      assert r[i] == chain[|r| - 1 - i];
    }
  }

  /** pth_gsched_drain: apply everything taken from the stack, oldest first. */
  method Drain(head: Message?, ghost chain: seq<Message>) returns (applied: seq<int>, any: bool)
    requires IsChain(head, chain)
    modifies chain
    ensures applied == Reverse(Payloads(chain))
    ensures any == (chain != [])
  {
    var rev := ReverseChain(head, chain);
    applied, any := [], false;
    ghost var r, k := Reverse(chain), 0;
    while rev != null
      invariant 0 <= k <= |r| && |applied| == k && any == (k > 0)
      invariant rev == if k < |r| then r[k] else null
      invariant IsChain(if r == [] then null else r[0], r)
      invariant forall i :: 0 <= i < k ==> applied[i] == r[i].payload
      decreases |r| - k
    {
      var next := rev.next;
      applied := applied + [rev.payload];
      any := true;
      rev := next;
      k := k + 1;
    }
  }
}

/**
 Concurrent pushes and drains over reusable addresses. A pusher owns the node it has allocated until
 its compare-and-swap succeeds; the drainer owns what it exchanged out; a freed address may be
 allocated again at once, even while a pusher still remembers it as the head it read.
 */
module InboxProtocol {
  import opened Basics

  type Addr = int

  datatype Node = Node(next: Option<Addr>, sender: Tid, payload: int)

  datatype Pusher =
    | Ready
    | Allocated(node: Addr)                      // message filled in
    | Loaded(node: Addr, seen: Option<Addr>)     // head read and stored as the node's next

  /**
   `stack` and `batch` are the nodes reached from the head and from the drainer's list (the drainer
   applies from the end of `batch`, the oldest). `asked`, `pushed` and `applied` record history: what
   each sender ever set out to send, what was sent by a completed push, and what was applied.
   */
  datatype State = State(
    heap: Addr -> Node, head: Option<Addr>, stack: seq<Addr>, batch: seq<Addr>,
    pusher: Tid -> Pusher, asked: Tid -> seq<int>, pushed: seq<(Tid, int)>, applied: seq<(Tid, int)>)

  datatype Step =
    | Alloc(t: Tid, a: Addr, payload: int)
    | Load(t: Tid)
    | Cas(t: Tid)
    | Exchange
    | ApplyOne

  ghost predicate Enabled(s: State, step: Step) {
    match step
    case Alloc(t, a, payload) =>
      && s.pusher(t) == Ready && a !in s.stack && a !in s.batch
      && forall u :: s.pusher(u) != Ready ==> s.pusher(u).node != a
    case Load(t) => s.pusher(t) != Ready
    case Cas(t) => s.pusher(t).Loaded?
    case Exchange => s.batch == []
    case ApplyOne => s.batch != []
  }

  ghost function Apply(s: State, step: Step): State
    requires Enabled(s, step)
  {
    match step
    case Alloc(t, a, payload) =>
      s.(heap := Set(s.heap, a, Node(s.heap(a).next, t, payload)), pusher := Set(s.pusher, t, Allocated(a)),
         asked := Set(s.asked, t, s.asked(t) + [payload]))
    case Load(t) =>
      var a := s.pusher(t).node;
      s.(heap := Set(s.heap, a, s.heap(a).(next := s.head)), pusher := Set(s.pusher, t, Loaded(a, s.head)))
    case Cas(t) =>
      var a := s.pusher(t).node;
      if s.head == s.pusher(t).seen then
        s.(head := Some(a), stack := [a] + s.stack, pusher := Set(s.pusher, t, Ready),
           pushed := s.pushed + [Item(s, a)])
      else s.(pusher := Set(s.pusher, t, Allocated(a)))
    case Exchange =>
      s.(head := None, batch := s.stack, stack := [])
    case ApplyOne =>
      var n := |s.batch| - 1;
      s.(batch := s.batch[..n], applied := s.applied + [Item(s, s.batch[n])])
  }

  function Item(s: State, a: Addr): (Tid, int) {
    (s.heap(a).sender, s.heap(a).payload)
  }

  /** The messages of a newest-first list of nodes, oldest first. */
  ghost function Oldest(heap: Addr -> Node, nodes: seq<Addr>): seq<(Tid, int)> {
    if nodes == [] then [] else Oldest(heap, nodes[1..]) + [(heap(nodes[0]).sender, heap(nodes[0]).payload)]
  }

  ghost predicate Init(s: State) {
    s.head == None && s.stack == [] && s.batch == [] && s.pushed == [] && s.applied == []
    && forall t :: s.pusher(t) == Ready && s.asked(t) == []
  }

  /** The links really spell out a list of nodes. */
  ghost predicate Spells(heap: Addr -> Node, head: Option<Addr>, nodes: seq<Addr>) {
    && head == (if nodes == [] then None else Some(nodes[0]))
    && (forall i {:trigger heap(nodes[i])} :: 0 <= i < |nodes| ==>
          heap(nodes[i]).next == if i + 1 < |nodes| then Some(nodes[i + 1]) else None)
  }

  ghost predicate Owned(s: State) {
    && NoDup(s.stack) && NoDup(s.batch)
    && (forall a :: a in s.stack ==> a !in s.batch)
    && (forall t :: s.pusher(t) != Ready ==>
          && s.pusher(t).node !in s.stack && s.pusher(t).node !in s.batch
          && s.heap(s.pusher(t).node).sender == t
          && (s.pusher(t).Loaded? ==> s.heap(s.pusher(t).node).next == s.pusher(t).seen))
    && (forall t, u :: s.pusher(t) != Ready && s.pusher(u) != Ready && t != u ==> s.pusher(t).node != s.pusher(u).node)
  }

  /** What a sender set out to send was pushed, in that order, but for the message it is pushing now. */
  ghost predicate Sent(s: State, t: Tid) {
    s.asked(t) == From(t, s.pushed) + if s.pusher(t) == Ready then [] else [s.heap(s.pusher(t).node).payload]
  }

  /** Everything pushed was applied, or waits in the drained batch, or waits on the stack, in order. */
  ghost predicate Accounted(s: State) {
    s.pushed == s.applied + Oldest(s.heap, s.batch) + Oldest(s.heap, s.stack)
  }

  ghost predicate Inv(s: State) {
    && Owned(s)
    && Spells(s.heap, s.head, s.stack)
    && Accounted(s)
    && (forall t :: Sent(s, t))
  }

  lemma {:induction false} OldestFrame(heap: Addr -> Node, heap': Addr -> Node, nodes: seq<Addr>)
    requires forall a :: a in nodes ==> heap'(a).sender == heap(a).sender && heap'(a).payload == heap(a).payload
    ensures Oldest(heap', nodes) == Oldest(heap, nodes)
  {
    if nodes != [] {
      var a := nodes[0];
      assert a in nodes && heap'(a).sender == heap(a).sender && heap'(a).payload == heap(a).payload;
      OldestFrame(heap, heap', nodes[1..]);
    }
  }

  lemma {:induction false} OldestLast(heap: Addr -> Node, nodes: seq<Addr>)
    requires nodes != []
    ensures var n := |nodes| - 1;
            Oldest(heap, nodes) == [(heap(nodes[n]).sender, heap(nodes[n]).payload)] + Oldest(heap, nodes[..n])
  {
    var n := |nodes| - 1;
    if n > 0 {
      OldestLast(heap, nodes[1..]);
      assert nodes[1..][..n - 1] == nodes[..n][1..];
    }
  }

  lemma StepKeepsOwned(s: State, step: Step)
    requires Inv(s) && Enabled(s, step)
    ensures Owned(Apply(s, step))
  {
  }

  /** A successful compare-and-swap links to the present head, however often its address was reused. */
  lemma StepKeepsLinks(s: State, step: Step)
    requires Inv(s) && Enabled(s, step)
    ensures Spells(Apply(s, step).heap, Apply(s, step).head, Apply(s, step).stack)
  {
    var s' := Apply(s, step);
    if step.Cas? && s.head == s.pusher(step.t).seen {
      assert forall i :: 1 <= i < |s'.stack| ==> s'.stack[i] == s.stack[i - 1];
    } else if step.Alloc? || step.Load? {
      forall i | 0 <= i < |s.stack| ensures s'.heap(s.stack[i]) == s.heap(s.stack[i]) {
        assert s.stack[i] in s.stack;
      }
    }
  }

  lemma StepKeepsAccount(s: State, step: Step)
    requires Inv(s) && Enabled(s, step)
    ensures Accounted(Apply(s, step))
  {
    var s' := Apply(s, step);
    match step
    case Alloc(t, a, payload) =>
      OldestFrame(s.heap, s'.heap, s.stack);
      OldestFrame(s.heap, s'.heap, s.batch);
    case Load(t) =>
      OldestFrame(s.heap, s'.heap, s.stack);
      OldestFrame(s.heap, s'.heap, s.batch);
    case Cas(t) =>
      var a := s.pusher(t).node;
      if s.head == s.pusher(t).seen {
        assert ([a] + s.stack)[1..] == s.stack;
      }
    case Exchange =>
    case ApplyOne =>
      OldestLast(s.heap, s.batch);
  }

  lemma StepKeepsSent(s: State, step: Step)
    requires Inv(s) && Enabled(s, step)
    ensures forall t :: Sent(Apply(s, step), t)
  {
    var s' := Apply(s, step);
    forall t ensures Sent(s', t) {
      assert Sent(s, t);
      if step.Cas? && s.head == s.pusher(step.t).seen {
        FromOneMore(t, s.pushed, Item(s, s.pusher(step.t).node));
      }
    }
  }

  ghost predicate Next(s: State, s': State) {
    exists step :: Enabled(s, step) && s' == Apply(s, step)
  }

  ghost predicate IsRun(run: seq<State>) {
    run != [] && Init(run[0]) && forall i :: 0 <= i < |run| - 1 ==> Next(run[i], run[i + 1])
  }

  lemma {:induction false} RunsKeepInv(run: seq<State>, i: nat)
    requires IsRun(run) && i < |run|
    ensures Inv(run[i])
  {
    if i > 0 {
      RunsKeepInv(run, i - 1);
      assert Next(run[i - 1], run[i]);
      var step :| Enabled(run[i - 1], step) && run[i] == Apply(run[i - 1], step);
      StepKeepsOwned(run[i - 1], step);
      StepKeepsLinks(run[i - 1], step);
      StepKeepsAccount(run[i - 1], step);
      StepKeepsSent(run[i - 1], step);
    }
  }

  /** What has been applied is always a prefix of what was pushed: each once, in push order. */
  lemma AppliedInPushOrder(run: seq<State>, i: nat)
    requires IsRun(run) && i < |run|
    ensures run[i].applied <= run[i].pushed
    ensures run[i].batch == [] && run[i].head == None ==> run[i].applied == run[i].pushed
  {
    RunsKeepInv(run, i);
    var s := run[i];
    assert s.applied + Oldest(s.heap, s.batch) + Oldest(s.heap, s.stack)
        == s.applied + (Oldest(s.heap, s.batch) + Oldest(s.heap, s.stack));
  }

  // Order of one sender

  /** A sender's messages, in the order in which its posts completed. */
  function From(t: Tid, log: seq<(Tid, int)>): seq<int> {
    if log == [] then []
    else
      var n := |log| - 1;
      if log[n].0 == t then From(t, log[..n]) + [log[n].1] else From(t, log[..n])
  }

  lemma {:induction false} FromPrefix(t: Tid, a: seq<(Tid, int)>, b: seq<(Tid, int)>)
    requires a <= b
    ensures From(t, a) <= From(t, b)
  {
    if |a| < |b| {
      var n := |b| - 1;
      FromPrefix(t, a, b[..n]);
      assert From(t, b[..n]) <= From(t, b);
    } else {
      assert a == b;
    }
  }

  lemma FromOneMore(t: Tid, log: seq<(Tid, int)>, item: (Tid, int))
    ensures From(t, log + [item]) == From(t, log) + if item.0 == t then [item.1] else []
  {
    assert (log + [item])[..|log|] == log;
  }

  /**
   Every sender's messages are applied in the order in which it set out to send them, without gaps; when
   it is not pushing and the inbox is empty, all of them have been.
   */
  lemma SenderOrderKept(run: seq<State>, i: nat, t: Tid)
    requires IsRun(run) && i < |run|
    ensures var s := run[i];
            && From(t, s.applied) <= From(t, s.pushed) <= s.asked(t)
            && (s.pusher(t) == Ready && s.batch == [] && s.head == None ==> From(t, s.applied) == s.asked(t))
  {
    AppliedInPushOrder(run, i);
    FromPrefix(t, run[i].applied, run[i].pushed);
    RunsKeepInv(run, i);
    assert Sent(run[i], t);
  }
}
