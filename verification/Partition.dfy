/**
 Any number of schedulers that spawn threads onto each other and send each other requests. A thread
 is spawned locally or travels to its home scheduler in a SPAWN message; cancel, abort, suspend,
 resume, favor and reap requests are applied by the home scheduler when it drains its inbox. Requests
 other than REAP may name any address, freed or reused ones included.
 */
module ThreadPartition {
  import opened Basics
  import opened PriorityOrder
  import opened SchedulerOps

  /** `born` records the threads ever spawned onto a scheduler. */
  datatype State = State(g: Sid -> Gs, inbox: Sid -> seq<Op>, born: Sid -> seq<Tid>)

  datatype Step =
    | Local(s: Sid, op: Op)  // the scheduler loop, or a thread it is running
    | Send(s: Sid, op: Op)   // any OS thread
    | Deliver(s: Sid)        // one message of a drain

  predicate IsMessage(op: Op) {
    op.Adopt? || op.Suspend? || op.Resume? || op.Favor? || op.Cancel? || op.Abort? || op.Reap?
  }

  /** SPAWN messages for `t` that have not been applied yet. */
  ghost function Pending(q: seq<Op>, t: Tid): nat {
    if q == [] then 0 else (if q[0].Adopt? && q[0].t == t then 1 else 0) + Pending(q[1..], t)
  }

  /** In how many places of scheduler `s`, its unread spawn messages included, `t` is. */
  ghost function Live(st: State, s: Sid, t: Tid): int {
    Held(st.g(s), t) + Pending(st.inbox(s), t)
  }

  ghost predicate Unborn(st: State, t: Tid) { forall s :: Live(st, s, t) == 0 }

  ghost predicate ReapPending(q: seq<Op>, t: Tid) { Reap(t) in q }

  /**
   A new thread has an address that no live thread has. A thread has one joiner: a REAP is sent for a
   thread in the dead queue, and from then on nobody else joins or aborts it.
   */
  ghost predicate Allowed(st: State, s: Sid, op: Op) {
    match op
    case Adopt(t, block) => Unborn(st, t)
    case Reap(t) => Contains(st.g(s).dq, t) && !ReapPending(st.inbox(s), t)
    case Abort(t) => !ReapPending(st.inbox(s), t)
    case _ => true
  }

  ghost predicate Enabled(st: State, step: Step) {
    match step
    case Local(s, op) => OpEnabled(st.g(s), op) && Allowed(st, s, op)
    case Send(s, op) =>
      IsMessage(op) && Allowed(st, s, op) && (op.Reap? ==> Abort(op.t) !in st.inbox(s))
    case Deliver(s) => st.inbox(s) != [] && st.g(s).current == None
  }

  /** A REAP frees its thread whether or not it is in the dead queue. */
  function ApplyMessage(g: Gs, op: Op): Gs {
    if OpEnabled(g, op) then SchedulerOps.Apply(g, op)
    else if op.Reap? then Free(g, op.t)
    else g
  }

  function BornBy(st: State, s: Sid, op: Op): Sid -> seq<Tid> {
    if op.Adopt? then Set(st.born, s, st.born(s) + [op.t]) else st.born
  }

  predicate Playable(st: State, step: Step) {
    match step
    case Local(s, op) => OpEnabled(st.g(s), op)
    case Send(s, op) => true
    case Deliver(s) => st.inbox(s) != []
  }

  ghost function Apply(st: State, step: Step): State
    requires Playable(st, step)
  {
    match step
    case Local(s, op) =>
      st.(g := Set(st.g, s, SchedulerOps.Apply(st.g(s), op)), born := BornBy(st, s, op))
    case Send(s, op) =>
      st.(inbox := Set(st.inbox, s, st.inbox(s) + [op]), born := BornBy(st, s, op))
    case Deliver(s) =>
      st.(g := Set(st.g, s, ApplyMessage(st.g(s), st.inbox(s)[0])), inbox := Set(st.inbox, s, st.inbox(s)[1..]))
  }

  predicate Fresh(g: Gs) {
    g.nq == [] && g.rq == [] && g.wq == [] && g.sq == [] && g.dq == [] && g.current == None && g.frees == []
  }

  ghost predicate Init(st: State) {
    forall s {:trigger st.g(s)} {:trigger st.inbox(s)} {:trigger st.born(s)} ::
      Fresh(st.g(s)) && st.inbox(s) == [] && st.born(s) == []
  }

  // The invariant

  /** Held or freed or in a message: exactly as often as it was spawned here. */
  ghost predicate BooksBalance(st: State, s: Sid, t: Tid) {
    Ever(st.g(s), t) + Pending(st.inbox(s), t) == multiset(st.born(s))[t]
  }

  /** Reap requests in an inbox: one per thread, the thread is in the dead queue, no abort beside it. */
  ghost predicate ReapsAreSafe(g: Gs, q: seq<Op>) {
    && (forall i :: 0 <= i < |q| && q[i].Reap? ==> Count(g.dq, q[i].t) > 0)
    && (forall i, j :: 0 <= i < j < |q| && q[i].Reap? && q[j].Reap? ==> q[i].t != q[j].t)
    && (forall i, j :: 0 <= i < |q| && 0 <= j < |q| && q[i].Reap? && q[j].Abort? ==> q[i].t != q[j].t)
  }

  ghost predicate SchedulerOk(st: State, s: Sid) {
    && Sound(st.g(s))
    && ReapsAreSafe(st.g(s), st.inbox(s))
    && (forall i :: 0 <= i < |st.inbox(s)| ==> IsMessage(st.inbox(s)[i]))
    && (forall t :: Live(st, s, t) <= 1 && BooksBalance(st, s, t))
  }

  ghost predicate Inv(st: State) {
    && (forall s :: SchedulerOk(st, s))
    && (forall s, r, t :: Live(st, s, t) > 0 && Live(st, r, t) > 0 ==> s == r)
  }

  lemma {:induction false} PendingAppend(q: seq<Op>, op: Op, t: Tid)
    ensures Pending(q + [op], t) == Pending(q, t) + if op.Adopt? && op.t == t then 1 else 0
  {
    if q == [] {
      assert [op][1..] == [];
    } else {
      PendingAppend(q[1..], op, t);
      assert (q + [op])[1..] == q[1..] + [op];
    }
  }

  // A pending reap keeps its thread in the dead queue

  lemma {:induction false} MoveNewKeepsDq(g: Gs, favour: bool)
    ensures MoveAllNew(g, favour).dq == g.dq
    decreases |g.nq|
  {
    if g.nq != [] {
      var t := g.nq[|g.nq| - 1].thread;
      assert IndexOf(g.nq, t) < |g.nq|;
      MoveNewKeepsDq(MoveOne(g, t, favour), favour);
    }
  }

  lemma {:induction false} PromoteKeepsDq(g: Gs, ts: seq<Tid>, occurred: Tid -> bool)
    ensures PromoteEach(g, ts, occurred).dq == g.dq
    decreases |ts|
  {
    if ts != [] {
      PromoteKeepsDq(if Due(g, ts[0], occurred) then PromoteOne(g, ts[0]) else g, ts[1..], occurred);
    }
  }

  lemma OthersKeepDq(g: Gs, op: Op, t: Tid)
    requires Sound(g) && OpEnabled(g, op) && Count(g.dq, t) > 0
    requires op != Reap(t) && op != Abort(t)
    ensures Count(SchedulerOps.Apply(g, op).dq, t) > 0
  {
    match op
    case MoveNew(favour) => MoveNewKeepsDq(g, favour);
    case Promote(occurred) => PromoteKeepsDq(g, Threads(g.wq), occurred);
    case AfterRun(how) => CountInsert(g.dq, PRIO_STD, g.current.value, t);
    case Cancel(u) => CountInsert(g.dq, PRIO_STD, u, t);
    case Abort(u) => AbortKeepsDq(g, u, t);
    case Reap(u) =>
      CountContains(g.dq, u);
      CountWithout(g.dq, u, t);
    case _ =>
  }

  lemma AbortKeepsDq(g: Gs, u: Tid, t: Tid)
    requires Sound(g) && Count(g.dq, t) > 0 && u != t
    ensures Count(AbortThread(g, u).dq, t) > 0
  {
    CountInsert(g.dq, PRIO_STD, u, t);
    if Exists(g, u) && g.StateOf(u) == DEAD {
      DeadIsInDq(g, u);
      CountContains(g.dq, u);
      CountWithout(g.dq, u, t);
    }
  }

  // Every step keeps the invariant

  lemma OtherSchedulers(st: State, st': State, s: Sid)
    requires Inv(st)
    requires forall r :: r != s ==> st'.g(r) == st.g(r) && st'.inbox(r) == st.inbox(r) && st'.born(r) == st.born(r)
    ensures forall r :: r != s ==> SchedulerOk(st', r)
    ensures forall r, t :: r != s ==> Live(st', r, t) == Live(st, r, t)
  {
    forall r | r != s ensures SchedulerOk(st', r) {
      assert SchedulerOk(st, r);
      forall t ensures Live(st', r, t) <= 1 && BooksBalance(st', r, t) {
        assert Live(st, r, t) <= 1 && BooksBalance(st, r, t);
      }
    }
  }

  /** What remains to be shown for the scheduler that took the step. */
  lemma StepAt(st: State, st': State, s: Sid, adds: Option<Tid>)
    requires Inv(st)
    requires forall r :: r != s ==> st'.g(r) == st.g(r) && st'.inbox(r) == st.inbox(r) && st'.born(r) == st.born(r)
    requires SchedulerOk(st', s)
    requires forall t :: Live(st', s, t) <= Live(st, s, t) + if adds == Some(t) then 1 else 0
    requires adds.Some? ==> Unborn(st, adds.value)
    ensures Inv(st')
  {
    OtherSchedulers(st, st', s);
  }

  lemma LocalKeepsInv(st: State, s: Sid, op: Op)
    requires Inv(st) && Enabled(st, Local(s, op))
    ensures Inv(Apply(st, Local(s, op)))
  {
    var g, q, st' := st.g(s), st.inbox(s), Apply(st, Local(s, op));
    var g' := SchedulerOps.Apply(g, op);
    assert SchedulerOk(st, s) && st'.g(s) == g' && st'.inbox(s) == q;
    assert op.Adopt? ==> Live(st, s, op.t) == 0;
    OpConserves(g, op);
    forall i | 0 <= i < |q| && q[i].Reap? ensures Count(g'.dq, q[i].t) > 0 {
      assert Reap(q[i].t) in q;
      OthersKeepDq(g, op, q[i].t);
    }
    forall t ensures Live(st', s, t) <= 1 && BooksBalance(st', s, t)
                     && Live(st', s, t) <= Live(st, s, t) + if op.Adopt? && op.t == t then 1 else 0 {
      assert Live(st, s, t) <= 1 && BooksBalance(st, s, t);
      FreesGrow(g, op, t);
    }
    assert SchedulerOk(st', s);
    StepAt(st, st', s, if op.Adopt? then Some(op.t) else None);
  }

  ghost predicate AddsAtMostOne(f: seq<Tid>, f': seq<Tid>) {
    f' == f || (|f'| == |f| + 1 && f'[..|f|] == f)
  }

  lemma CancelFrees(g: Gs, t: Tid)
    ensures AddsAtMostOne(g.frees, CancelThread(g, t).0.frees)
  {
  }

  lemma AbortFrees(g: Gs, t: Tid)
    ensures AddsAtMostOne(g.frees, AbortThread(g, t).frees)
  {
    CancelFrees(g.(tcb := Set(g.tcb, t, g.tcb(t).(joinable := false, cancelEnable := true, cancelAsync := true))), t);
  }

  lemma FreesAtMostOne(g: Gs, op: Op)
    requires Sound(g) && OpEnabled(g, op)
    ensures AddsAtMostOne(g.frees, SchedulerOps.Apply(g, op).frees)
  {
    match op
    case MoveNew(favour) => MoveNewKeepsFrees(g, favour);
    case Promote(occurred) => PromoteKeepsFrees(g, Threads(g.wq), occurred);
    case Cancel(t) => CancelFrees(g, t);
    case Abort(t) => AbortFrees(g, t);
    case _ =>
  }

  /** Nothing is taken back from the record of freed threads. */
  lemma FreesGrow(g: Gs, op: Op, t: Tid)
    requires Sound(g) && OpEnabled(g, op)
    ensures TallyOf(SchedulerOps.Apply(g, op), t).freed >= TallyOf(g, t).freed
  {
    FreesAtMostOne(g, op);
    LongerCountsMore(g.frees, SchedulerOps.Apply(g, op).frees, t);
  }

  lemma LongerCountsMore(a: seq<Tid>, b: seq<Tid>, t: Tid)
    requires |a| <= |b| && b[..|a|] == a
    ensures multiset(b)[t] >= multiset(a)[t]
  {
    assert b == a + b[|a|..];
  }

  lemma {:induction false} MoveNewKeepsFrees(g: Gs, favour: bool)
    ensures MoveAllNew(g, favour).frees == g.frees
    decreases |g.nq|
  {
    if g.nq != [] {
      var t := g.nq[|g.nq| - 1].thread;
      assert IndexOf(g.nq, t) < |g.nq|;
      MoveNewKeepsFrees(MoveOne(g, t, favour), favour);
    }
  }

  lemma {:induction false} PromoteKeepsFrees(g: Gs, ts: seq<Tid>, occurred: Tid -> bool)
    ensures PromoteEach(g, ts, occurred).frees == g.frees
    decreases |ts|
  {
    if ts != [] {
      PromoteKeepsFrees(if Due(g, ts[0], occurred) then PromoteOne(g, ts[0]) else g, ts[1..], occurred);
    }
  }

  lemma ReapsAppend(g: Gs, q: seq<Op>, op: Op)
    requires ReapsAreSafe(g, q) && ((op.Reap? || op.Abort?) ==> !ReapPending(q, op.t))
    requires op.Reap? ==> Contains(g.dq, op.t) && Abort(op.t) !in q
    ensures ReapsAreSafe(g, q + [op])
  {
    if op.Reap? {
      CountContains(g.dq, op.t);
    }
    assert forall i :: 0 <= i < |q| ==> (q + [op])[i] == q[i] && q[i] in q;
  }

  lemma ReapsAfter(g: Gs, q: seq<Op>)
    requires Sound(g) && q != [] && ReapsAreSafe(g, q) && OpEnabled(g, q[0])
    ensures ReapsAreSafe(SchedulerOps.Apply(g, q[0]), q[1..])
  {
    forall i | 0 <= i < |q[1..]| && q[1..][i].Reap? ensures Count(SchedulerOps.Apply(g, q[0]).dq, q[1..][i].t) > 0 {
      assert q[i + 1].Reap? && q[1..][i] == q[i + 1];
      OthersKeepDq(g, q[0], q[i + 1].t);
    }
  }

  lemma SendKeepsInv(st: State, s: Sid, op: Op)
    requires Inv(st) && Enabled(st, Send(s, op))
    ensures Inv(Apply(st, Send(s, op)))
  {
    var q, st' := st.inbox(s), Apply(st, Send(s, op));
    assert SchedulerOk(st, s) && st'.g(s) == st.g(s) && st'.inbox(s) == q + [op];
    assert op.Adopt? ==> Live(st, s, op.t) == 0;
    ReapsAppend(st.g(s), q, op);
    forall t ensures Live(st', s, t) <= 1 && BooksBalance(st', s, t)
                     && Live(st', s, t) <= Live(st, s, t) + if op.Adopt? && op.t == t then 1 else 0 {
      assert Live(st, s, t) <= 1 && BooksBalance(st, s, t);
      PendingAppend(q, op, t);
    }
    assert SchedulerOk(st', s);
    StepAt(st, st', s, if op.Adopt? then Some(op.t) else None);
  }

  /** A REAP that reaches the front of an inbox finds its thread in the dead queue. */
  lemma ReapFindsItsThread(st: State, s: Sid)
    requires Inv(st) && st.inbox(s) != [] && st.inbox(s)[0].Reap?
    ensures Contains(st.g(s).dq, st.inbox(s)[0].t)
  {
    assert SchedulerOk(st, s);
    CountContains(st.g(s).dq, st.inbox(s)[0].t);
  }

  lemma DeliverKeepsInv(st: State, s: Sid)
    requires Inv(st) && Enabled(st, Deliver(s))
    ensures Inv(Apply(st, Deliver(s)))
  {
    var g, q, st' := st.g(s), st.inbox(s), Apply(st, Deliver(s));
    var op := q[0];
    assert SchedulerOk(st, s) && IsMessage(op);
    if op.Reap? {
      ReapFindsItsThread(st, s);
    }
    assert OpEnabled(g, op);
    var g' := SchedulerOps.Apply(g, op);
    assert st'.g(s) == g' && st'.inbox(s) == q[1..];
    assert op.Adopt? ==> Live(st, s, op.t) <= 1 && Pending(q, op.t) >= 1;
    OpConserves(g, op);
    ReapsAfter(g, q);
    forall t ensures Live(st', s, t) <= Live(st, s, t) && BooksBalance(st', s, t) {
      assert BooksBalance(st, s, t);
      FreesGrow(g, op, t);
    }
    assert SchedulerOk(st', s) by {
      forall t ensures Live(st', s, t) <= 1 {
        assert Live(st, s, t) <= 1;
      }
    }
    StepAt(st, st', s, None);
  }

  /**
   A request sent to another scheduler does there, when it is applied, exactly what the local call does:
   every message can be carried out, the first of the inbox is, and no other scheduler notices.
   */
  lemma DeliveryIsTheOperation(st: State, s: Sid, r: Sid)
    requires Inv(st) && Enabled(st, Deliver(s))
    ensures var g, q, st' := st.g(s), st.inbox(s), Apply(st, Deliver(s));
            && OpEnabled(g, q[0]) && st'.g(s) == SchedulerOps.Apply(g, q[0]) && q == [q[0]] + st'.inbox(s)
            && (r != s ==> st'.g(r) == st.g(r) && st'.inbox(r) == st.inbox(r))
  {
    assert SchedulerOk(st, s) && IsMessage(st.inbox(s)[0]);
    if st.inbox(s)[0].Reap? {
      ReapFindsItsThread(st, s);
    }
  }

  /** Sending adds the request behind the others and touches no queue. */
  lemma SendOnlyQueues(st: State, s: Sid, op: Op, r: Sid)
    requires Enabled(st, Send(s, op))
    ensures var st' := Apply(st, Send(s, op));
            st'.g(r) == st.g(r) && st'.inbox(r) == if r == s then st.inbox(r) + [op] else st.inbox(r)
  {
  }

  lemma StepKeepsInv(st: State, step: Step)
    requires Inv(st) && Enabled(st, step)
    ensures Inv(Apply(st, step))
  {
    match step
    case Local(s, op) => LocalKeepsInv(st, s, op);
    case Send(s, op) => SendKeepsInv(st, s, op);
    case Deliver(s) => DeliverKeepsInv(st, s);
  }

  ghost predicate Next(st: State, st': State) {
    exists step :: Enabled(st, step) && st' == Apply(st, step)
  }

  ghost predicate IsRun(run: seq<State>) {
    run != [] && Init(run[0]) && forall i :: 0 <= i < |run| - 1 ==> Next(run[i], run[i + 1])
  }

  lemma InitIsGood(st: State)
    requires Init(st)
    ensures Inv(st)
  {
    forall s ensures SchedulerOk(st, s) && forall t :: Live(st, s, t) == 0 {
      assert Fresh(st.g(s)) && st.inbox(s) == [] && st.born(s) == [];
      assert forall t :: SoundAt(st.g(s), t);
    }
  }

  lemma {:induction false} RunsKeepInv(run: seq<State>, i: nat)
    requires IsRun(run) && i < |run|
    ensures Inv(run[i])
  {
    if i == 0 {
      InitIsGood(run[0]);
    } else {
      RunsKeepInv(run, i - 1);
      assert Next(run[i - 1], run[i]);
      var step :| Enabled(run[i - 1], step) && run[i] == Apply(run[i - 1], step);
      StepKeepsInv(run[i - 1], step);
    }
  }

  // What the runs guarantee

  /**
   At any time a thread is in at most one place of one scheduler, and it is in one exactly if it was
   spawned there more often than it was freed there: none is lost, duplicated or freed twice.
   */
  lemma EveryThreadHasOnePlace(run: seq<State>, i: nat, s: Sid, t: Tid)
    requires IsRun(run) && i < |run|
    ensures 0 <= Live(run[i], s, t) <= 1
    ensures Live(run[i], s, t) + multiset(run[i].g(s).frees)[t] == multiset(run[i].born(s))[t]
    ensures forall r :: r != s && Live(run[i], s, t) > 0 ==> Live(run[i], r, t) == 0
  {
    RunsKeepInv(run, i);
    assert SchedulerOk(run[i], s) && BooksBalance(run[i], s, t);
    forall r | r != s && Live(run[i], s, t) > 0 ensures Live(run[i], r, t) == 0 {
      assert Live(run[i], r, t) <= 0;
    }
  }

  /** The queue a thread is in agrees with its state, and a suspended thread can always be resumed. */
  lemma QueueAgreesWithState(run: seq<State>, i: nat, s: Sid, t: Tid)
    requires IsRun(run) && i < |run|
    ensures var g := run[i].g(s);
            && (Contains(g.nq, t) ==> g.StateOf(t) == NEW)
            && (Contains(g.rq, t) ==> g.StateOf(t) == READY)
            && (Contains(g.wq, t) ==> g.StateOf(t) == WAITING)
            && (Contains(g.dq, t) ==> g.StateOf(t) == DEAD && g.tcb(t).joinable)
            && (Contains(g.sq, t) ==> g.StateOf(t) in {NEW, READY, WAITING})
            && (Contains(g.sq, t) ==> Contains(LiveQueue(ResumeThread(g, t).0, g.StateOf(t)), t))
  {
    RunsKeepInv(run, i);
    var g := run[i].g(s);
    assert SchedulerOk(run[i], s) && SoundAt(g, t);
    CountContains(g.nq, t);
    CountContains(g.rq, t);
    CountContains(g.wq, t);
    CountContains(g.dq, t);
    if Contains(g.sq, t) {
      ResumeFindsAQueue(g, t);
    }
  }
}
