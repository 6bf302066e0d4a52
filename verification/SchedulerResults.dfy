/**
 What callers of one scheduler's operations can rely on beyond conservation: which requests are granted,
 what a cancellation leads to, and where in the order of its queue a thread comes in.
 */
module SchedulerResults {
  import opened Basics
  import opened PriorityOrder
  import opened SchedulerOps

  // Promotion

  /** One turn of the loop in `PromoteEach` */
  function Turn(g: Gs, u: Tid, occurred: Tid -> bool): Gs {
    if Due(g, u, occurred) then PromoteOne(g, u) else g
  }

  lemma TurnAt(g: Gs, u: Tid, occurred: Tid -> bool, t: Tid)
    requires Count(g.wq, u) > 0
    ensures var g', y := Turn(g, u, occurred), TallyOf(g, t);
            && TallyOf(g', t) == (if t == u && Due(g, t, occurred) then y.(w := y.w - 1, r := y.r + 1, state := READY) else y)
            && (Due(g', t, occurred) <==> Due(g, t, occurred))
            && g'.wq == (if Due(g, u, occurred) then Without(g.wq, u) else g.wq)
  {
    if Due(g, u, occurred) {
      PromoteOneAt(g, u, t);
    }
  }

  lemma FirstIsApart(ts: seq<Tid>, t: Tid)
    requires ts != [] && NoDup(ts)
    ensures NoDup(ts[1..]) && ts[0] !in ts[1..] && (t in ts <==> t == ts[0] || t in ts[1..])
  {
    assert ts == [ts[0]] + ts[1..];
  }

  lemma {:induction false} PromoteEachAt(g: Gs, ts: seq<Tid>, occurred: Tid -> bool, t: Tid)
    requires NoDup(ts) && Listed(ts, g.wq)
    ensures var g', y := PromoteEach(g, ts, occurred), TallyOf(g, t);
            TallyOf(g', t) == if t in ts && Due(g, t, occurred) then y.(w := y.w - 1, r := y.r + 1, state := READY) else y
    decreases |ts|
  {
    if ts != [] {
      ListedTail(ts, g.wq);
      FirstIsApart(ts, t);
      TurnAt(g, ts[0], occurred, t);
      PromoteEachAt(Turn(g, ts[0], occurred), ts[1..], occurred, t);
    }
  }

  lemma {:induction false} CountTwice(q: seq<Entry<Tid>>, i: nat, j: nat)
    requires i < j < |q| && q[i].thread == q[j].thread
    ensures Count(q, q[i].thread) >= 2
  {
    if i == 0 {
      CountContains(q[1..], q[j].thread);
      assert q[1..][j - 1] == q[j];
    } else {
      assert q[1..][i - 1] == q[i] && q[1..][j - 1] == q[j];
      CountTwice(q[1..], i - 1, j - 1);
    }
  }

  lemma CountedOnce(q: seq<Entry<Tid>>)
    requires forall t :: Count(q, t) <= 1
    ensures Distinct(q)
  {
    forall i, j | 0 <= i < j < |q| ensures q[i].thread != q[j].thread {
      if q[i].thread == q[j].thread {
        CountTwice(q, i, j);
      }
    }
  }

  lemma WaitersAreDistinct(g: Gs)
    requires Sound(g)
    ensures Distinct(g.wq) && NoDup(Threads(g.wq)) && Listed(Threads(g.wq), g.wq)
  {
    forall t ensures Count(g.wq, t) <= 1 && multiset(Threads(g.wq))[t] <= Count(g.wq, t) {
      assert SoundAt(g, t);
      CountThreads(g.wq, t);
    }
    CountedOnce(g.wq);
  }

  /** A promotion makes ready exactly the waiting threads whose event occurred or that are to be cancelled. */
  lemma PromotionIsExact(g: Gs, occurred: Tid -> bool, t: Tid)
    requires Sound(g)
    ensures var g' := PromoteDue(g, occurred);
            && (Contains(g'.wq, t) <==> Contains(g.wq, t) && !Due(g, t, occurred))
            && (Contains(g'.rq, t) <==> Contains(g.rq, t) || (Contains(g.wq, t) && Due(g, t, occurred)))
  {
    var g' := PromoteDue(g, occurred);
    WaitersAreDistinct(g);
    PromoteEachAt(g, Threads(g.wq), occurred, t);
    CountContains(g.wq, t);
    CountContains(g'.wq, t);
    CountContains(g.rq, t);
    CountContains(g'.rq, t);
    assert SoundAt(g, t);
    assert t in Threads(g.wq) <==> Contains(g.wq, t);
  }

  // Cancellation

  /**
   A cancellation is accepted exactly of a thread that lives and, if it is to be carried out at once, is
   not suspended. Of every living thread the request is recorded, and nobody else's block is touched.
   */
  lemma CancelIsRecorded(g: Gs, t: Tid, u: Tid)
    requires Sound(g)
    ensures var (g', ok) := CancelThread(g, t);
            && (ok <==> Exists(g, t) && g.StateOf(t) != DEAD && (g.tcb(t).cancelEnable && g.tcb(t).cancelAsync ==> !Contains(g.sq, t)))
            && (Exists(g, t) && g.StateOf(t) != DEAD ==> g'.tcb(t).cancelReq)
            && (!Exists(g, t) || g.StateOf(t) == DEAD ==> g' == g)
            && (u != t ==> g'.tcb(u) == g.tcb(u))
  {
    assert SoundAt(g, t);
    CountContains(g.nq, t);
    CountContains(g.rq, t);
    CountContains(g.wq, t);
    CountContains(g.sq, t);
    CountContains(g.dq, t);
  }

  /** Carried out at once, it ends the thread: kept dead if it can be joined, else freed. */
  lemma AsynchronousCancelEnds(g: Gs, t: Tid)
    requires Sound(g) && CancelThread(g, t).1 && g.tcb(t).cancelEnable && g.tcb(t).cancelAsync
    ensures var g' := CancelThread(g, t).0;
            if g.tcb(t).joinable then Contains(g'.dq, t) && g'.StateOf(t) == DEAD && g'.frees == g.frees
            else Held(g', t) == 0 && g'.frees == g.frees + [t]
  {
    var st, g1 := g.StateOf(t), g.(tcb := Set(g.tcb, t, g.tcb(t).(cancelReq := true)));
    var g2 := SetQueue(g1, st, Without(LiveQueue(g, st), t));
    assert SoundAt(g, t);
    assert TallyOf(g1, t) == TallyOf(g, t);
    CountContains(LiveQueue(g, st), t);
    TakeLiveAt(g1, st, t, t);
    KickAt(g2, t, t);
    CountContains(CancelThread(g, t).0.dq, t);
  }

  lemma MovesKeepBlocks(g: Gs, t: Tid)
    ensures SuspendThread(g, t).0.tcb == g.tcb && ResumeThread(g, t).0.tcb == g.tcb && FavorThread(g, t).tcb == g.tcb
  {
    match g.StateOf(t)
    case NEW =>
    case READY =>
    case WAITING =>
    case DEAD =>
  }

  lemma CancelKeepsRequest(g: Gs, u: Tid, t: Tid)
    requires g.tcb(t).cancelReq
    ensures CancelThread(g, u).0.tcb(t).cancelReq
  {
    match g.StateOf(u)
    case NEW =>
    case READY =>
    case WAITING =>
    case DEAD =>
  }

  lemma AbortKeepsRequest(g: Gs, u: Tid, t: Tid)
    requires g.tcb(t).cancelReq
    ensures AbortThread(g, u).tcb(t).cancelReq
  {
    CancelKeepsRequest(g.(tcb := Set(g.tcb, u, g.tcb(u).(joinable := false, cancelEnable := true, cancelAsync := true))), u, t);
  }

  /** Nothing but a new thread at the same address clears a request. */
  lemma OpKeepsRequest(g: Gs, op: Op, t: Tid)
    requires OpEnabled(g, op) && g.tcb(t).cancelReq && (op.Adopt? ==> op.t != t)
    ensures Apply(g, op).tcb(t).cancelReq
  {
    match op
    case Adopt(u, block) =>
    case MoveNew(favour) => MoveNewKeepsRequests(g, favour, t);
    case Dispatch =>
    case AfterRun(how) =>
    case Promote(occurred) => PromoteKeepsRequests(g, Threads(g.wq), occurred, t);
    case Suspend(u) => MovesKeepBlocks(g, u);
    case Resume(u) => MovesKeepBlocks(g, u);
    case Favor(u) => MovesKeepBlocks(g, u);
    case Cancel(u) => CancelKeepsRequest(g, u, t);
    case Abort(u) => AbortKeepsRequest(g, u, t);
    case Reap(u) =>
  }

  lemma {:induction false} MoveNewKeepsRequests(g: Gs, favour: bool, t: Tid)
    ensures MoveAllNew(g, favour).tcb(t).cancelReq == g.tcb(t).cancelReq
    decreases |g.nq|
  {
    if g.nq != [] {
      var u := g.nq[|g.nq| - 1].thread;
      assert IndexOf(g.nq, u) < |g.nq|;
      MoveNewKeepsRequests(MoveOne(g, u, favour), favour, t);
    }
  }

  lemma {:induction false} PromoteKeepsRequests(g: Gs, ts: seq<Tid>, occurred: Tid -> bool, t: Tid)
    ensures PromoteEach(g, ts, occurred).tcb(t).cancelReq == g.tcb(t).cancelReq
    decreases |ts|
  {
    if ts != [] {
      PromoteKeepsRequests(if Due(g, ts[0], occurred) then PromoteOne(g, ts[0]) else g, ts[1..], occurred, t);
    }
  }

  /** `ops` can be played from `g`, spawn at unused addresses only and not at that of `t`, and lead to `g'`. */
  ghost predicate Leads(g: Gs, ops: seq<Op>, t: Tid, g': Gs)
    decreases |ops|
  {
    if ops == [] then g == g'
    else
      && OpEnabled(g, ops[0]) && (ops[0].Adopt? ==> Held(g, ops[0].t) == 0 && ops[0].t != t)
      && Leads(Apply(g, ops[0]), ops[1..], t, g')
  }

  lemma {:induction false} RequestStays(g: Gs, ops: seq<Op>, t: Tid, g': Gs)
    requires Sound(g) && Leads(g, ops, t, g') && g.tcb(t).cancelReq
    ensures Sound(g') && g'.tcb(t).cancelReq
    decreases |ops|
  {
    if ops != [] {
      OpConserves(g, ops[0]);
      OpKeepsRequest(g, ops[0], t);
      RequestStays(Apply(g, ops[0]), ops[1..], t, g');
    }
  }

  /**
   A thread that waits after a cancellation was accepted, at once or after any further operations, is
   ready after the next promotion, whatever events have occurred.
   */
  lemma CancelledWaiterIsWoken(g: Gs, t: Tid, ops: seq<Op>, g': Gs, occurred: Tid -> bool)
    requires Sound(g) && CancelThread(g, t).1 && Leads(CancelThread(g, t).0, ops, t, g') && Contains(g'.wq, t)
    ensures Contains(PromoteDue(g', occurred).rq, t) && !Contains(PromoteDue(g', occurred).wq, t)
  {
    CancelIsRecorded(g, t, t);
    CancelConserves(g, t);
    RequestStays(CancelThread(g, t).0, ops, t, g');
    PromotionIsExact(g', occurred, t);
  }

  /** An abort ends a thread that is not suspended, and detaches and flags one that is. */
  lemma AbortEnds(g: Gs, t: Tid)
    requires Sound(g) && Exists(g, t)
    ensures var g' := AbortThread(g, t);
            if Contains(g.sq, t) then Contains(g'.sq, t) && !g'.tcb(t).joinable && g'.tcb(t).cancelReq && g'.frees == g.frees
            else Held(g', t) == 0 && g'.frees == g.frees + [t]
  {
    assert SoundAt(g, t);
    if g.StateOf(t) == DEAD {
      AbortOfTheDead(g, t);
    } else {
      var g1 := g.(tcb := Set(g.tcb, t, g.tcb(t).(joinable := false, cancelEnable := true, cancelAsync := true)));
      FlagsConserve(g, t, g1.tcb(t));
      CancelIsRecorded(g1, t, t);
      if Contains(g.sq, t) {
        SuspendedIsNotQueued(g, t);
      } else {
        AsynchronousCancelEnds(g1, t);
      }
    }
  }

  lemma AbortOfTheDead(g: Gs, t: Tid)
    requires Sound(g) && Exists(g, t) && g.StateOf(t) == DEAD
    ensures !Contains(g.sq, t) && Held(AbortThread(g, t), t) == 0 && AbortThread(g, t).frees == g.frees + [t]
  {
    DeadIsInDq(g, t);
    assert SoundAt(g, t);
    CountContains(g.dq, t);
    CountContains(g.sq, t);
    ReapAt(g, t, t);
  }

  lemma SuspendedIsNotQueued(g: Gs, t: Tid)
    requires Sound(g) && Contains(g.sq, t)
    ensures !Contains(LiveQueue(g, g.StateOf(t)), t) && g.StateOf(t) != DEAD
  {
    assert SoundAt(g, t);
    CountContains(g.sq, t);
    CountContains(g.nq, t);
    CountContains(g.rq, t);
    CountContains(g.wq, t);
  }

  // Suspension

  /** A suspension is granted exactly of a thread in one of the three live queues, and else changes nothing. */
  lemma SuspendAnswers(g: Gs, t: Tid)
    requires Sound(g)
    ensures var (g', ok) := SuspendThread(g, t);
            && (ok <==> Contains(g.nq, t) || Contains(g.rq, t) || Contains(g.wq, t))
            && (ok ==> Contains(g'.sq, t) && !Contains(g.sq, t) && g'.tcb == g.tcb) && (!ok ==> g' == g)
  {
    assert SoundAt(g, t);
    CountContains(g.nq, t);
    CountContains(g.rq, t);
    CountContains(g.wq, t);
    CountContains(g.sq, t);
    if SuspendThread(g, t).1 {
      SuspendAt(g, t, t);
      CountContains(SuspendThread(g, t).0.sq, t);
    }
  }

  lemma ResumeAnswers(g: Gs, t: Tid)
    requires Sound(g)
    ensures var (g', ok) := ResumeThread(g, t);
            && (ok <==> Contains(g.sq, t)) && (!ok ==> g' == g)
            && (ok ==> !Contains(g'.sq, t) && Contains(LiveQueue(g', g.StateOf(t)), t) && g'.tcb == g.tcb)
  {
    if ResumeThread(g, t).1 {
      assert SoundAt(g, t);
      SuspendedIsNotQueued(g, t);
      ResumeAt(g, t, t);
      CountContains(g.sq, t);
      CountContains(ResumeThread(g, t).0.sq, t);
      CountContains(LiveQueue(ResumeThread(g, t).0, g.StateOf(t)), t);
    }
  }

  lemma SuspendedOnce(g: Gs, t: Tid)
    requires Sound(g) && !Contains(g.sq, t)
    ensures Without(Insert(g.sq, PRIO_STD, t), t) == g.sq && Contains(Insert(g.sq, PRIO_STD, t), t)
  {
    forall u ensures Count(g.sq, u) <= 1 {
      assert SoundAt(g, u);
    }
    CountedOnce(g.sq);
    InsertThenWithout(g.sq, PRIO_STD, t);
    CountInsert(g.sq, PRIO_STD, t, t);
    CountContains(Insert(g.sq, PRIO_STD, t), t);
  }

  /** A suspension followed by a resume puts the thread back where it was, at the standard priority. */
  lemma SuspendThenResume(g: Gs, t: Tid)
    requires Sound(g) && SuspendThread(g, t).1
    ensures var st := g.StateOf(t);
            ResumeThread(SuspendThread(g, t).0, t) == (SetQueue(g, st, Insert(Without(LiveQueue(g, st), t), PRIO_STD, t)), true)
  {
    SuspendAnswers(g, t);
    SuspendedOnce(g, t);
    BackAgain(g, g.StateOf(t), Without(LiveQueue(g, g.StateOf(t)), t), t);
  }

  lemma BackAgain(g: Gs, st: TState, q: seq<Entry<Tid>>, t: Tid)
    requires st == g.StateOf(t) && st != DEAD
    requires Without(Insert(g.sq, PRIO_STD, t), t) == g.sq && Contains(Insert(g.sq, PRIO_STD, t), t)
    ensures ResumeThread(SetQueue(g, st, q).(sq := Insert(g.sq, PRIO_STD, t)), t) == (SetQueue(g, st, Insert(q, PRIO_STD, t)), true)
  {
    match st
    case NEW =>
    case READY =>
    case WAITING =>
  }

  // Order

  /** `r` is `q` with `t` put behind everything of at least its priority and before everything below. */
  ghost predicate ComesIn(q: seq<Entry<Tid>>, prio: int, t: Tid, r: seq<Entry<Tid>>) {
    exists k :: IsStableInsertAt(q, prio, t, r, k)
  }

  lemma InsertComesIn(q: seq<Entry<Tid>>, prio: int, t: Tid)
    requires Sorted(q)
    ensures ComesIn(q, prio, t, Insert(q, prio, t)) && Sorted(Insert(q, prio, t))
  {
    InsertIsStable(q, prio, t);
  }

  /** A new thread takes its place among the new ones by its own priority. */
  lemma AdoptOrders(g: Gs, t: Tid, block: Tcb)
    requires Sorted(g.nq)
    ensures var g' := AdoptThread(g, t, block);
            ComesIn(g.nq, block.prio, t, g'.nq) && g'.tcb(t) == block.(state := NEW) && g'.rq == g.rq && g'.wq == g.wq
  {
    InsertComesIn(g.nq, block.prio, t);
  }

  /**
   Whoever gives up the processor lets everybody ready age by one first; a thread that goes on comes in
   behind those of at least its own priority, and one that waits takes its place among the waiting ones.
   */
  lemma SettleOrders(g: Gs, how: Outcome)
    requires g.current.Some? && Sorted(g.rq) && Sorted(g.wq)
    ensures var g', t := Settle(g, how), g.current.value;
            && g'.current == None && g'.nq == g.nq && g'.sq == g.sq
            && (how == Yielded ==> ComesIn(Raise(g.rq), g.PrioOf(t), t, g'.rq) && g'.wq == g.wq && g'.tcb == g.tcb)
            && (how == Waits ==> g'.rq == Raise(g.rq) && ComesIn(g.wq, g.PrioOf(t), t, g'.wq))
            && (how == Exited ==> g'.rq == Raise(g.rq) && g'.wq == g.wq)
  {
    RaiseKeepsOrder(g.rq);
    InsertComesIn(Raise(g.rq), g.PrioOf(g.current.value), g.current.value);
    InsertComesIn(g.wq, g.PrioOf(g.current.value), g.current.value);
  }

  /** A resumed thread comes in at the standard priority. */
  lemma ResumeOrders(g: Gs, t: Tid)
    requires Sorted(g.nq) && Sorted(g.rq) && Sorted(g.wq) && Contains(g.sq, t) && g.StateOf(t) != DEAD
    ensures var g', st := ResumeThread(g, t).0, g.StateOf(t);
            ComesIn(LiveQueue(g, st), PRIO_STD, t, LiveQueue(g', st))
  {
    InsertComesIn(LiveQueue(g, g.StateOf(t)), PRIO_STD, t);
  }

  /** Yielding to a thread of the new or ready queue makes it the first there; it does nothing else. */
  lemma FavorPutsFirst(g: Gs, t: Tid)
    requires Sound(g) && Sorted(g.nq) && Sorted(g.rq)
    ensures var g', st := FavorThread(g, t), g.StateOf(t);
            if Contains(g.nq, t) || Contains(g.rq, t)
            then Threads(LiveQueue(g', st)) == [t] + Threads(Without(LiveQueue(g, st), t)) && SetQueue(g', st, LiveQueue(g, st)) == g
            else g' == g
  {
    forall u ensures Count(g.nq, u) <= 1 && Count(g.rq, u) <= 1 {
      assert SoundAt(g, u);
    }
    CountedOnce(g.nq);
    CountedOnce(g.rq);
    assert SoundAt(g, t);
    CountContains(g.nq, t);
    CountContains(g.rq, t);
    if Contains(g.nq, t) || Contains(g.rq, t) {
      FavoriteIsFirst(LiveQueue(g, g.StateOf(t)), t);
    }
  }

  // A woken thread goes before the one that ran last

  lemma InsertKeepsEntries(q: seq<Entry<Tid>>, prio: int, t: Tid, e: Entry<Tid>)
    ensures e in Insert(q, prio, t) <==> e in q || e == Entry(t, prio)
  {
    var k := Rank(q, prio);
    SpliceParts(q, k, Entry(t, prio));
    assert q == q[..k] + q[k..];
  }

  lemma TurnKeepsEntries(g: Gs, u: Tid, occurred: Tid -> bool, t: Tid, e: Entry<Tid>)
    requires Sorted(g.rq)
    ensures var g' := Turn(g, u, occurred);
            && Sorted(g'.rq) && (e in g.rq ==> e in g'.rq) && g'.PrioOf(t) == g.PrioOf(t)
            && (Due(g', t, occurred) <==> Due(g, t, occurred))
            && (Due(g, u, occurred) ==> Entry(u, g.PrioOf(u) + 1) in g'.rq)
  {
    InsertIsStable(g.rq, g.PrioOf(u) + 1, u);
    InsertKeepsEntries(g.rq, g.PrioOf(u) + 1, u, e);
    InsertKeepsEntries(g.rq, g.PrioOf(u) + 1, u, Entry(u, g.PrioOf(u) + 1));
  }

  lemma {:induction false} PromoteKeepsEntries(g: Gs, ts: seq<Tid>, occurred: Tid -> bool, e: Entry<Tid>)
    requires Sorted(g.rq)
    ensures var g' := PromoteEach(g, ts, occurred); Sorted(g'.rq) && (e in g.rq ==> e in g'.rq)
    decreases |ts|
  {
    if ts != [] {
      TurnKeepsEntries(g, ts[0], occurred, ts[0], e);
      PromoteKeepsEntries(Turn(g, ts[0], occurred), ts[1..], occurred, e);
    }
  }

  /** A thread that is made ready enters one above its own priority. */
  lemma {:induction false} WokenEntersAbove(g: Gs, ts: seq<Tid>, occurred: Tid -> bool, t: Tid)
    requires Sorted(g.rq) && t in ts && Due(g, t, occurred)
    ensures Entry(t, g.PrioOf(t) + 1) in PromoteEach(g, ts, occurred).rq
    decreases |ts|
  {
    var e := Entry(t, g.PrioOf(t) + 1);
    TurnKeepsEntries(g, ts[0], occurred, t, e);
    if ts[0] == t {
      PromoteKeepsEntries(Turn(g, t, occurred), ts[1..], occurred, e);
    } else {
      assert t in ts[1..];
      WokenEntersAbove(Turn(g, ts[0], occurred), ts[1..], occurred, t);
    }
  }

  lemma HigherComesFirst(q: seq<Entry<Tid>>, a: Entry<Tid>, b: Entry<Tid>)
    requires Sorted(q) && Distinct(q) && a in q && b in q && a.prio > b.prio
    ensures IndexOf(q, a.thread) < IndexOf(q, b.thread) < |q|
  {
    var i :| 0 <= i < |q| && q[i] == a;
    var j :| 0 <= j < |q| && q[j] == b;
    assert IndexOf(q, a.thread) == i && IndexOf(q, b.thread) == j;
  }

  /** The thread that ran last comes in at its own priority. */
  lemma YieldedEntersAt(g: Gs)
    requires g.current.Some? && Sorted(g.rq)
    ensures var g', u := Settle(g, Yielded), g.current.value;
            Sorted(g'.rq) && Entry(u, g.PrioOf(u)) in g'.rq && g'.tcb == g.tcb && g'.wq == g.wq
  {
    var u := g.current.value;
    RaiseKeepsOrder(g.rq);
    InsertIsStable(Raise(g.rq), g.PrioOf(u), u);
    InsertKeepsEntries(Raise(g.rq), g.PrioOf(u), u, Entry(u, g.PrioOf(u)));
  }

  lemma ReadyAreDistinct(g: Gs)
    requires Sound(g)
    ensures Distinct(g.rq)
  {
    forall t ensures Count(g.rq, t) <= 1 {
      assert SoundAt(g, t);
    }
    CountedOnce(g.rq);
  }

  /** Promoted threads go before those they outrank by their own priority plus one. */
  lemma PromotedGoesBefore(g: Gs, occurred: Tid -> bool, t: Tid, e: Entry<Tid>)
    requires Sound(g) && Sorted(g.rq) && Contains(g.wq, t) && Due(g, t, occurred)
    requires e in g.rq && g.PrioOf(t) >= e.prio
    ensures var q := PromoteDue(g, occurred).rq; IndexOf(q, t) < IndexOf(q, e.thread) < |q|
  {
    var i :| 0 <= i < |g.wq| && g.wq[i].thread == t;
    assert Threads(g.wq)[i] == t;
    WokenEntersAbove(g, Threads(g.wq), occurred, t);
    PromoteKeepsEntries(g, Threads(g.wq), occurred, e);
    PromoteDueConserves(g, occurred);
    ReadyAreDistinct(PromoteDue(g, occurred));
    HigherComesFirst(PromoteDue(g, occurred).rq, Entry(t, g.PrioOf(t) + 1), e);
  }

  /** A thread whose event occurs while another one runs goes before that one, unless it is of lower priority. */
  lemma WokenGoesFirst(g: Gs, occurred: Tid -> bool, t: Tid)
    requires Sound(g) && Sorted(g.rq) && g.current.Some? && Contains(g.wq, t) && occurred(t)
    requires g.PrioOf(t) >= g.PrioOf(g.current.value)
    ensures var q := PromoteDue(Settle(g, Yielded), occurred).rq;
            IndexOf(q, t) < IndexOf(q, g.current.value) < |q|
  {
    var u := g.current.value;
    YieldedEntersAt(g);
    SettleConserves(g, Yielded);
    PromotedGoesBefore(Settle(g, Yielded), occurred, t, Entry(u, g.PrioOf(u)));
  }

  // Threads that are woken together keep their order

  ghost predicate Before(q: seq<Entry<Tid>>, t: Tid, u: Tid) {
    exists i, j :: 0 <= i < j < |q| && q[i].thread == t && q[j].thread == u
  }

  lemma InsertKeepsBefore(q: seq<Entry<Tid>>, prio: int, x: Tid, t: Tid, u: Tid)
    requires Before(q, t, u)
    ensures Before(Insert(q, prio, x), t, u)
  {
    var i, j :| 0 <= i < j < |q| && q[i].thread == t && q[j].thread == u;
    var k, r := Rank(q, prio), Insert(q, prio, x);
    var i', j' := if i < k then i else i + 1, if j < k then j else j + 1;
    assert r[i'] == q[i] && r[j'] == q[j];
  }

  lemma {:induction false} RankIsBehind(q: seq<Entry<Tid>>, prio: int, i: nat)
    requires Sorted(q) && i < |q| && q[i].prio >= prio
    ensures i < Rank(q, prio)
  {
    assert q[0].prio >= q[i].prio;
    if i > 0 {
      RankIsBehind(q[1..], prio, i - 1);
    }
  }

  lemma InsertComesBehind(q: seq<Entry<Tid>>, prio: int, u: Tid, e: Entry<Tid>)
    requires Sorted(q) && e in q && e.prio >= prio
    ensures Before(Insert(q, prio, u), e.thread, u)
  {
    var i :| 0 <= i < |q| && q[i] == e;
    var k, r := Rank(q, prio), Insert(q, prio, u);
    RankIsBehind(q, prio, i);
    assert r[i] == e && r[k].thread == u;
  }

  lemma TurnKeepsBefore(g: Gs, x: Tid, occurred: Tid -> bool, t: Tid, u: Tid)
    requires Before(g.rq, t, u)
    ensures Before(Turn(g, x, occurred).rq, t, u)
  {
    InsertKeepsBefore(g.rq, g.PrioOf(x) + 1, x, t, u);
  }

  lemma {:induction false} PromoteKeepsBefore(g: Gs, ts: seq<Tid>, occurred: Tid -> bool, t: Tid, u: Tid)
    requires Before(g.rq, t, u)
    ensures Before(PromoteEach(g, ts, occurred).rq, t, u)
    decreases |ts|
  {
    if ts != [] {
      TurnKeepsBefore(g, ts[0], occurred, t, u);
      PromoteKeepsBefore(Turn(g, ts[0], occurred), ts[1..], occurred, t, u);
    }
  }

  lemma {:induction false} ReadyComesBefore(g: Gs, ts: seq<Tid>, occurred: Tid -> bool, e: Entry<Tid>, u: Tid)
    requires Sorted(g.rq) && e in g.rq && u in ts && Due(g, u, occurred) && e.prio >= g.PrioOf(u) + 1
    ensures Before(PromoteEach(g, ts, occurred).rq, e.thread, u)
    decreases |ts|
  {
    TurnKeepsEntries(g, ts[0], occurred, u, e);
    if ts[0] == u {
      InsertComesBehind(g.rq, g.PrioOf(u) + 1, u, e);
      PromoteKeepsBefore(Turn(g, u, occurred), ts[1..], occurred, e.thread, u);
    } else {
      ReadyComesBefore(Turn(g, ts[0], occurred), ts[1..], occurred, e, u);
    }
  }

  lemma {:induction false} WokenInOrder(g: Gs, ts: seq<Tid>, occurred: Tid -> bool, i: nat, j: nat)
    requires Sorted(g.rq) && i < j < |ts| && Due(g, ts[i], occurred) && Due(g, ts[j], occurred)
    requires g.PrioOf(ts[i]) >= g.PrioOf(ts[j])
    ensures Before(PromoteEach(g, ts, occurred).rq, ts[i], ts[j])
    decreases |ts|
  {
    var t, u, g1 := ts[i], ts[j], Turn(g, ts[0], occurred);
    var e := Entry(t, g.PrioOf(t) + 1);
    TurnKeepsEntries(g, ts[0], occurred, t, e);
    TurnKeepsEntries(g, ts[0], occurred, u, e);
    if i == 0 {
      assert ts[1..][j - 1] == u;
      ReadyComesBefore(g1, ts[1..], occurred, e, u);
    } else {
      assert ts[1..][i - 1] == t && ts[1..][j - 1] == u;
      WokenInOrder(g1, ts[1..], occurred, i - 1, j - 1);
    }
  }

  /** Of two waiting threads that are due, the one that waits in front becomes ready in front, unless it is of lower priority. */
  lemma WokenKeepTheirOrder(g: Gs, occurred: Tid -> bool, i: nat, j: nat)
    requires Sorted(g.rq) && i < j < |g.wq|
    requires var t, u := g.wq[i].thread, g.wq[j].thread;
             Due(g, t, occurred) && Due(g, u, occurred) && g.PrioOf(t) >= g.PrioOf(u)
    ensures Before(PromoteDue(g, occurred).rq, g.wq[i].thread, g.wq[j].thread)
  {
    WokenInOrder(g, Threads(g.wq), occurred, i, j);
  }
}
