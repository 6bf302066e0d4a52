/**
 A thread that is parked on two wait queues at once. The cancellation handler of a condition wait
 queues for the mutex before it takes itself off the condition's queue (pth_sync.c, lines 529 to
 535), and a thread has one link for both.
 */
module SharedWaiter {
  import opened Basics
  import opened WaitQueue

  /** The position of `t` in a queue it is in. */
  ghost function At(s: seq<Waiter>, t: Waiter): (k: nat)
    requires t in s
    ensures k < |s| && s[k] == t
  {
    var k :| 0 <= k < |s| && s[k] == t;
    k
  }

  /** The one at position `k`, if there is one. */
  ghost function Nth(s: seq<Waiter>, k: nat): Waiter? {
    if k < |s| then s[k] else null
  }

  /** The one behind `t`. */
  ghost function Behind(s: seq<Waiter>, t: Waiter): Waiter?
    requires t in s
  {
    Nth(s, At(s, t) + 1)
  }

  /** The queue holds `t`, and every link in it is right but perhaps the one of `t`. */
  ghost predicate RightBut(q: Queue, t: Waiter)
    reads q, q.items
  {
    && NoDup(q.items) && t in q.items && q.head == q.items[0] && q.tail == q.items[|q.items| - 1]
    && forall i {:trigger q.items[i].wqNext} :: 0 <= i < |q.items| && q.items[i] != t ==> q.items[i].wqNext == Nth(q.items, i + 1)
  }

  lemma IntactExactlyWhen(q: Queue, t: Waiter)
    requires RightBut(q, t)
    ensures q.Valid() <==> t.wqNext == Behind(q.items, t)
  {
    var k := At(q.items, t);
    assert q.items[k].wqNext == t.wqNext;
  }

  ghost predicate OnlyCommon(a: seq<Waiter>, b: seq<Waiter>, t: Waiter) {
    forall x :: x in a && x in b ==> x == t
  }

  /** `t` is parked on both queues and no one else is. */
  ghost predicate Both(p: Queue, q: Queue, t: Waiter)
    reads p, p.items, q, q.items
  {
    p != q && RightBut(p, t) && RightBut(q, t) && OnlyCommon(p.items, q.items, t)
  }

  lemma BehindIsAnother(s: seq<Waiter>, t: Waiter)
    requires NoDup(s) && t in s
    ensures Behind(s, t) != null ==> Behind(s, t) in s && Behind(s, t) != t
  {
  }

  /** Two queues in order that share `t` alone both end in it. */
  lemma SharedIsLast(p: Queue, q: Queue, t: Waiter)
    requires p.Valid() && q.Valid() && t in p.items && t in q.items && OnlyCommon(p.items, q.items, t)
    ensures Behind(p.items, t) == null && Behind(q.items, t) == null
  {
    IntactExactlyWhen(p, t);
    IntactExactlyWhen(q, t);
    BehindIsAnother(p.items, t);
    BehindIsAnother(q.items, t);
  }

  /** pth_waitq_append on either of the two queues */
  method AppendOn(p: Queue, q: Queue, t: Waiter, u: Waiter)
    requires Both(p, q, t) && u !in p.items && u !in q.items
    modifies p, p.items, u
    ensures Both(p, q, t) && p.items == old(p.items) + [u] && q.items == old(q.items)
    ensures t.wqNext == if old(Behind(p.items, t)) == null then u else old(t.wqNext)
    ensures Behind(p.items, t) == if old(Behind(p.items, t)) == null then u else old(Behind(p.items, t))
  {
    p.Link(u);
    p.items := p.items + [u];
    forall i | 0 <= i < |q.items| && q.items[i] != t ensures q.items[i].wqNext == Nth(q.items, i + 1) {
      assert q.items[i] !in old(p.items) && old(q.items[i].wqNext) == Nth(q.items, i + 1);
    }
  }

  /** pth_waitq_shift on either of the two queues, while `t` is not at its head */
  method ShiftOn(p: Queue, q: Queue, t: Waiter)
    requires Both(p, q, t) && p.items[0] != t
    modifies p, p.items
    ensures Both(p, q, t) && p.items == old(p.items)[1..] && q.items == old(q.items)
    ensures t.wqNext == old(t.wqNext) && Behind(p.items, t) == old(Behind(p.items, t))
  {
    var x := p.Unlink();
    p.items := p.items[1..];
    forall i | 0 <= i < |q.items| && q.items[i] != t ensures q.items[i].wqNext == Nth(q.items, i + 1) {
      assert q.items[i] !in old(p.items) && old(q.items[i].wqNext) == Nth(q.items, i + 1);
    }
  }

  /**
   What `t` parked on both comes to: its one link shows the one behind it in one of the two queues,
   and is empty only while no one is behind it in the queue it joined last.
   */
  ghost predicate Shared(first: Queue, second: Queue, t: Waiter)
    reads first, first.items, second, second.items
  {
    && Both(first, second, t)
    && (t.wqNext == null || t.wqNext == Behind(first.items, t) || t.wqNext == Behind(second.items, t))
    && (t.wqNext == null ==> Behind(second.items, t) == null)
  }

  /**
   Both queues are intact exactly while `t` is the last of both. With no one behind `t` in one of
   them, that one is intact exactly while its link is empty: for the first queue, while no one is
   behind `t` in the second.
   */
  lemma SharedIntactExactlyWhen(first: Queue, second: Queue, t: Waiter)
    requires Shared(first, second, t)
    ensures first.Valid() && second.Valid() <==> Behind(first.items, t) == null && Behind(second.items, t) == null
    ensures Behind(first.items, t) == null ==> (first.Valid() <==> Behind(second.items, t) == null)
    ensures Behind(second.items, t) == null ==> (second.Valid() <==> t.wqNext == null)
  {
    IntactExactlyWhen(first, t);
    IntactExactlyWhen(second, t);
    BehindIsAnother(first.items, t);
    BehindIsAnother(second.items, t);
  }

  /** The handler of a cancelled condition wait queues for the mutex. */
  method Park(first: Queue, second: Queue, t: Waiter)
    requires first != second && first.Valid() && second.Valid()
    requires t in first.items && forall x :: x in first.items ==> x !in second.items
    modifies second, second.items, t
    ensures second.items == old(second.items) + [t] && first.items == old(first.items)
    ensures Shared(first, second, t) && t.wqNext == null && second.Valid() && Behind(second.items, t) == null
    ensures first.Valid() <==> Behind(first.items, t) == null
  {
    second.Append(t);
    forall i | 0 <= i < |first.items| && first.items[i] != t ensures first.items[i].wqNext == Nth(first.items, i + 1) {
      assert first.items[i] !in old(second.items) && old(first.items[i].wqNext) == Nth(first.items, i + 1);
    }
    SharedIntactExactlyWhen(first, second, t);
    IntactExactlyWhen(first, t);
  }

  /** What other threads do to the two queues while `t` is parked on both */
  datatype Op = AppendFirst(u: Waiter) | AppendSecond(u: Waiter) | ShiftFirst | ShiftSecond

  datatype Contents = Contents(first: seq<Waiter>, second: seq<Waiter>)

  /** A thread that is parked already does not park, and `t` is not called from either queue. */
  ghost predicate Fits(c: Contents, t: Waiter, op: Op) {
    match op
    case AppendFirst(u) => u !in c.first && u !in c.second
    case AppendSecond(u) => u !in c.first && u !in c.second
    case ShiftFirst => c.first != [] && c.first[0] != t
    case ShiftSecond => c.second != [] && c.second[0] != t
  }

  ghost function Meant(c: Contents, op: Op): Contents {
    match op
    case AppendFirst(u) => c.(first := c.first + [u])
    case AppendSecond(u) => c.(second := c.second + [u])
    case ShiftFirst => if c.first == [] then c else c.(first := c.first[1..])
    case ShiftSecond => if c.second == [] then c else c.(second := c.second[1..])
  }

  /** The contents the callers mean the queues to have after `ops`. */
  ghost function After(c: Contents, ops: seq<Op>): Contents {
    if ops == [] then c else Meant(After(c, ops[..|ops| - 1]), ops[|ops| - 1])
  }

  ghost predicate Playable(c: Contents, t: Waiter, ops: seq<Op>) {
    ops == [] || (Playable(c, t, ops[..|ops| - 1]) && Fits(After(c, ops[..|ops| - 1]), t, ops[|ops| - 1]))
  }

  lemma {:induction false} PlayablePrefix(c: Contents, t: Waiter, ops: seq<Op>, k: nat)
    requires Playable(c, t, ops) && k < |ops|
    ensures Playable(c, t, ops[..k]) && Fits(After(c, ops[..k]), t, ops[k])
    ensures After(c, ops[..k + 1]) == Meant(After(c, ops[..k]), ops[k])
    decreases |ops|
  {
    var n := |ops| - 1;
    if k < n {
      PlayablePrefix(c, t, ops[..n], k);
      assert ops[..n][..k] == ops[..k] && ops[..n][..k + 1] == ops[..k + 1];
    } else {
      assert ops[..n + 1] == ops;
    }
  }

  /** Whoever comes directly behind `t`, in either queue, takes its link over. */
  ghost function Linked(c: Contents, t: Waiter, link: Waiter?, op: Op): Waiter? {
    match op
    case AppendFirst(u) => if t in c.first && Behind(c.first, t) == null then u else link
    case AppendSecond(u) => if t in c.second && Behind(c.second, t) == null then u else link
    case _ => link
  }

  ghost function LinkAfter(c: Contents, t: Waiter, link: Waiter?, ops: seq<Op>): Waiter? {
    if ops == [] then link
    else
      var n := |ops| - 1;
      Linked(After(c, ops[..n]), t, LinkAfter(c, t, link, ops[..n]), ops[n])
  }

  lemma LinkPrefix(c: Contents, t: Waiter, link: Waiter?, ops: seq<Op>, k: nat)
    requires k < |ops|
    ensures LinkAfter(c, t, link, ops[..k + 1]) == Linked(After(c, ops[..k]), t, LinkAfter(c, t, link, ops[..k]), ops[k])
  {
    assert ops[..k + 1][..k] == ops[..k];
  }

  /** Someone stands behind `t` in the first queue, and the link does not lead there. */
  ghost predicate CutOff(first: seq<Waiter>, t: Waiter, link: Waiter?) {
    t in first && Behind(first, t) != null && Behind(first, t) != link
  }

  method Step(first: Queue, second: Queue, t: Waiter, op: Op)
    requires Shared(first, second, t) && Fits(Contents(first.items, second.items), t, op)
    modifies first, first.items, second, second.items, if op.AppendFirst? || op.AppendSecond? then {op.u} else {}
    ensures Shared(first, second, t)
    ensures Contents(first.items, second.items) == Meant(old(Contents(first.items, second.items)), op)
    ensures t.wqNext == Linked(old(Contents(first.items, second.items)), t, old(t.wqNext), op)
    ensures old(CutOff(first.items, t, t.wqNext)) ==> CutOff(first.items, t, t.wqNext)
  {
    match op {
      case AppendFirst(u) => AppendOn(first, second, t, u);
      case AppendSecond(u) => AppendOn(second, first, t, u);
      case ShiftFirst => ShiftOn(first, second, t);
      case ShiftSecond => ShiftOn(second, first, t);
    }
  }

  ghost function Comers(ops: seq<Op>): set<Waiter> {
    set i | 0 <= i < |ops| && (ops[i].AppendFirst? || ops[i].AppendSecond?) :: ops[i].u
  }

  ghost predicate Within(s: seq<Waiter>, a: seq<Waiter>, more: set<Waiter>) {
    forall x :: x in s ==> x in a || x in more
  }

  /**
   Whatever is appended and shifted while `t` stays on both queues, each is intact exactly if the link
   leads to the one behind `t` in it. So both are exactly while no one stands behind `t` in either; the
   first, with `t` its last, exactly while no one stands behind `t` in the second; and with someone
   cut off when `t` parked, the first never.
   */
  method Play(first: Queue, second: Queue, t: Waiter, ops: seq<Op>)
    requires Shared(first, second, t) && Playable(Contents(first.items, second.items), t, ops)
    modifies first, first.items, second, second.items, Comers(ops)
    ensures Shared(first, second, t)
    ensures Contents(first.items, second.items) == After(old(Contents(first.items, second.items)), ops)
    ensures var link := LinkAfter(old(Contents(first.items, second.items)), t, old(t.wqNext), ops);
            && (first.Valid() <==> link == Behind(first.items, t))
            && (second.Valid() <==> link == Behind(second.items, t))
    ensures first.Valid() && second.Valid() <==> Behind(first.items, t) == null && Behind(second.items, t) == null
    ensures Behind(first.items, t) == null ==> (first.Valid() <==> Behind(second.items, t) == null)
    ensures old(CutOff(first.items, t, t.wqNext)) ==> !first.Valid()
  {
    ghost var c, link := Contents(first.items, second.items), t.wqNext;
    for i := 0 to |ops|
      invariant Shared(first, second, t) && Contents(first.items, second.items) == After(c, ops[..i])
      invariant t.wqNext == LinkAfter(c, t, link, ops[..i])
      invariant Within(first.items, c.first, Comers(ops)) && Within(second.items, c.second, Comers(ops))
      invariant CutOff(c.first, t, link) ==> CutOff(first.items, t, t.wqNext)
    {
      PlayablePrefix(c, t, ops, i);
      LinkPrefix(c, t, link, ops, i);
      Step(first, second, t, ops[i]);
    }
    assert ops[..|ops|] == ops;
    SharedIntactExactlyWhen(first, second, t);
    IntactExactlyWhen(first, t);
    IntactExactlyWhen(second, t);
  }

  /**
   A release hands the mutex to `t`. From then on the first queue is intact exactly if `t` is its
   last: whoever came behind `t` for the mutex did no lasting harm to it.
   */
  method CallFromSecond(first: Queue, second: Queue, t: Waiter) returns (x: Waiter?)
    requires Shared(first, second, t) && second.items[0] == t
    modifies second, t
    ensures x == t && t.wqNext == null && first.items == old(first.items) && second.items == old(second.items)[1..]
    ensures t !in second.items && RightBut(first, t) && (second.Valid() <==> old(second.Valid()))
    ensures first.Valid() <==> Behind(first.items, t) == null
  {
    IntactExactlyWhen(second, t);
    BehindIsAnother(second.items, t);
    x := second.Unlink();
    second.items := second.items[1..];
    forall i | 0 <= i < |first.items| && first.items[i] != t ensures first.items[i].wqNext == Nth(first.items, i + 1) {
      assert old(first.items[i].wqNext) == Nth(first.items, i + 1);
    }
    forall i | 0 <= i < |second.items| ensures second.items[i].wqNext == Nth(second.items, i + 1) {
      assert second.items[i] == old(second.items)[i + 1] && old(second.items[i + 1].wqNext) == Nth(old(second.items), i + 2);
    }
    IntactExactlyWhen(first, t);
  }

  /** `t` is off the second queue, and its link leads to the one behind it in the first, or nowhere. */
  ghost predicate Left(first: Queue, t: Waiter)
    reads first, first.items
  {
    RightBut(first, t) && (t.wqNext == null || t.wqNext == Behind(first.items, t))
  }

  // Nothing that happens to the first queue then changes whether it is intact

  method AppendLater(first: Queue, t: Waiter, u: Waiter)
    requires Left(first, t) && u !in first.items
    modifies first, first.items, u
    ensures Left(first, t) && first.items == old(first.items) + [u] && (first.Valid() <==> old(first.Valid()))
  {
    IntactExactlyWhen(first, t);
    first.Link(u);
    first.items := first.items + [u];
    IntactExactlyWhen(first, t);
  }

  method ShiftLater(first: Queue, t: Waiter)
    requires Left(first, t) && first.items[0] != t
    modifies first, first.items
    ensures Left(first, t) && first.items == old(first.items)[1..] && (first.Valid() <==> old(first.Valid()))
  {
    IntactExactlyWhen(first, t);
    var _ := first.Unlink();
    first.items := first.items[1..];
    IntactExactlyWhen(first, t);
  }

  /**
   A notification calls `t` off the first queue while someone came behind it for the mutex: that one
   becomes the head of the condition's queue, and is cut off the mutex's.
   */
  method CallFromFirst(first: Queue, second: Queue, t: Waiter) returns (x: Waiter?)
    requires Shared(first, second, t) && first.items[0] == t && Behind(second.items, t) != null
    requires t.wqNext == Behind(second.items, t)
    modifies first, t
    ensures x == t && first.head == Behind(second.items, t) && t.wqNext == null && second.items == old(second.items)
    ensures first.head !in old(first.items) && !second.Valid()
  {
    var u := first.head.wqNext;
    assert u in second.items && u != t;
    x := first.Unlink();
    assert second.items[At(second.items, t)].wqNext == null;
  }

  /** A condition's queue with `s` parked on it, and an empty mutex's queue */
  method Waiting(s: seq<Waiter>) returns (cond: Queue, mutex: Queue)
    requires NoDup(s)
    modifies s
    ensures fresh(cond) && fresh(mutex) && cond != mutex && cond.Valid() && mutex.Valid()
    ensures cond.items == s && mutex.items == []
  {
    cond := new Queue();
    mutex := new Queue();
    for i := 0 to |s|
      invariant cond.Valid() && mutex.Valid() && mutex.items == [] && cond.items == s[..i]
    {
      assert s[i] !in s[..i] && s[..i + 1] == s[..i] + [s[i]];
      cond.Append(s[i]);
    }
  }

  /** First input: someone waits for the condition behind the cancelled thread. */
  method SomeoneWaitsBehind(t: Waiter, u: Waiter) returns (cond: Queue, mutex: Queue)
    requires t != u
    modifies t, u
    ensures cond.items == [t, u] && mutex.items == [t] && mutex.Valid() && !cond.Valid()
  {
    cond, mutex := Waiting([t, u]);
    Park(cond, mutex, t);
    assert cond.items[0] == t && At(cond.items, t) == 0;
  }

  /** Second input: the cancelled thread is last on the condition, and someone comes behind it for the mutex. */
  method SomeoneQueuesBehind(t: Waiter, u: Waiter) returns (cond: Queue, mutex: Queue)
    requires t != u
    modifies t, u
    ensures fresh(cond) && fresh(mutex) && Shared(cond, mutex, t) && t.wqNext == u
    ensures cond.items == [t] && mutex.items == [t, u] && mutex.Valid() && !cond.Valid()
  {
    cond, mutex := Waiting([t]);
    Park(cond, mutex, t);
    assert At(cond.items, t) == 0;
    AppendOn(mutex, cond, t, u);
    IntactExactlyWhen(cond, t);
    IntactExactlyWhen(mutex, t);
  }

  /** The next notification then queues `u`, who waits for the mutex, on the condition instead. */
  method NotifyMovesThem(t: Waiter, u: Waiter) returns (cond: Queue, mutex: Queue, x: Waiter?)
    requires t != u
    modifies t, u
    ensures x == t && cond.head == u && mutex.items == [t, u] && !mutex.Valid()
  {
    cond, mutex := SomeoneQueuesBehind(t, u);
    assert At(mutex.items, t) == 0;
    x := CallFromFirst(cond, mutex, t);
  }
}
