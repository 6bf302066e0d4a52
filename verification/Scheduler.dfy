/**
 One scheduler (pth_sched.c, pth_lib.c, pth_cancel.c): five thread queues, the thread it is running,
 and the operations that move threads between them, as functions on the scheduler's state. Queues are
 the entry sequences of `PriorityOrder`; the class in `LinkedScheduler` computes the same operations
 on the delta-encoded rings of `PriorityQueue`.
 */
module SchedulerOps {
  import opened Basics
  import opened PriorityOrder

  datatype TState = NEW | READY | WAITING | DEAD

  datatype Tcb = Tcb(
    state: TState, prio: int, joinable: bool, cancelReq: bool, cancelEnable: bool, cancelAsync: bool)

  /** `tcb` is the control block at an address; `frees` records the calls of pth_tcb_free. */
  datatype Gs = Gs(
    nq: seq<Entry<Tid>>, rq: seq<Entry<Tid>>, wq: seq<Entry<Tid>>, sq: seq<Entry<Tid>>, dq: seq<Entry<Tid>>,
    current: Option<Tid>, tcb: Tid -> Tcb, frees: seq<Tid>)
  {
    function StateOf(t: Tid): TState { tcb(t).state }
    function PrioOf(t: Tid): int { tcb(t).prio }
  }

  datatype Outcome = Yielded | Waits | Exited

  datatype Op =
    | Adopt(t: Tid, block: Tcb)
    | MoveNew(favour: bool)
    | Dispatch
    | AfterRun(how: Outcome)
    | Promote(occurred: Tid -> bool)
    | Suspend(t: Tid)
    | Resume(t: Tid)
    | Favor(t: Tid)
    | Cancel(t: Tid)
    | Abort(t: Tid)
    | Reap(t: Tid)

  /** The queue a thread in state `st` belongs to; a dead thread belongs to none of these three. */
  function LiveQueue(g: Gs, st: TState): seq<Entry<Tid>> {
    match st case NEW => g.nq case READY => g.rq case WAITING => g.wq case DEAD => []
  }

  /** Replace that queue; for a dead thread the operation has no queue to act on. */
  function SetQueue(g: Gs, st: TState, q: seq<Entry<Tid>>): Gs {
    match st case NEW => g.(nq := q) case READY => g.(rq := q) case WAITING => g.(wq := q) case DEAD => g
  }

  function SetState(g: Gs, t: Tid, st: TState): Gs {
    g.(tcb := Set(g.tcb, t, g.tcb(t).(state := st)))
  }

  /** pth_thread_exists */
  predicate Exists(g: Gs, t: Tid) {
    Contains(g.nq, t) || Contains(g.rq, t) || Contains(g.wq, t) || Contains(g.sq, t) || Contains(g.dq, t)
  }

  function Free(g: Gs, t: Tid): Gs { g.(frees := g.frees + [t]) }

  /** pth_spawn, and a SPAWN message applied by the drain */
  function AdoptThread(g: Gs, t: Tid, block: Tcb): Gs {
    g.(tcb := Set(g.tcb, t, block.(state := NEW)), nq := Insert(g.nq, block.prio, t))
  }

  function MoveOne(g: Gs, t: Tid, favour: bool): Gs {
    SetState(g, t, READY).(
      nq := Without(g.nq, t),
      rq := Insert(g.rq, if favour then FavoritePrio(g.rq) else PRIO_STD, t))
  }

  /** Top of the scheduler loop: empty the new queue into the ready queue, from its tail. */
  function MoveAllNew(g: Gs, favour: bool): Gs
    decreases |g.nq|
  {
    if g.nq == [] then g
    else
      var t := g.nq[|g.nq| - 1].thread;
      assert IndexOf(g.nq, t) < |g.nq|;
      MoveAllNew(MoveOne(g, t, favour), favour)
  }

  function DispatchNext(g: Gs): Gs
    requires g.rq != []
  {
    g.(current := Some(g.rq[0].thread), rq := g.rq[1..])
  }

  /** What the loop does with the thread that has just given up the processor. */
  function Settle(g: Gs, how: Outcome): Gs
    requires g.current.Some?
  {
    var t := g.current.value;
    var g1 := g.(current := None, rq := Raise(g.rq));
    match how
    case Exited =>
      if !g.tcb(t).joinable then Free(SetState(g1, t, DEAD), t)
      else SetState(g1, t, DEAD).(dq := Insert(g.dq, PRIO_STD, t))
    case Waits => SetState(g1, t, WAITING).(wq := Insert(g.wq, g.tcb(t).prio, t))
    case Yielded => g1.(rq := Insert(g1.rq, g.tcb(t).prio, t))
  }

  function PromoteOne(g: Gs, t: Tid): Gs {
    SetState(g, t, READY).(wq := Without(g.wq, t), rq := Insert(g.rq, g.tcb(t).prio + 1, t))
  }

  predicate Due(g: Gs, t: Tid, occurred: Tid -> bool) { occurred(t) || g.tcb(t).cancelReq }

  function PromoteEach(g: Gs, ts: seq<Tid>, occurred: Tid -> bool): Gs
    decreases |ts|
  {
    if ts == [] then g
    else PromoteEach(if Due(g, ts[0], occurred) then PromoteOne(g, ts[0]) else g, ts[1..], occurred)
  }

  /** Last loop of the event manager: waiting threads with an occurred event become ready. */
  function PromoteDue(g: Gs, occurred: Tid -> bool): Gs {
    PromoteEach(g, Threads(g.wq), occurred)
  }

  /** pth_suspend_local */
  function SuspendThread(g: Gs, t: Tid): (Gs, bool) {
    var st := g.StateOf(t);
    var q := LiveQueue(g, st);
    if !Exists(g, t) || !Contains(q, t) then (g, false)
    else (SetQueue(g, st, Without(q, t)).(sq := Insert(g.sq, PRIO_STD, t)), true)
  }

  /** pth_resume_local; the thread of a state without a queue would be lost here. */
  function ResumeThread(g: Gs, t: Tid): (Gs, bool) {
    if !Contains(g.sq, t) then (g, false)
    else
      var st := g.StateOf(t);
      (SetQueue(g, st, Insert(LiveQueue(g, st), PRIO_STD, t)).(sq := Without(g.sq, t)), true)
  }

  /** pth_favor_local, and the queue part of pth_yield */
  function FavorThread(g: Gs, t: Tid): Gs {
    var st := g.StateOf(t);
    if Exists(g, t) && st in {NEW, READY} && Contains(LiveQueue(g, st), t)
    then SetQueue(g, st, PriorityOrder.Favorite(LiveQueue(g, st), t))
    else g
  }

  function Kick(g: Gs, t: Tid): Gs {
    if !g.tcb(t).joinable then Free(g, t)
    else SetState(g, t, DEAD).(dq := Insert(g.dq, PRIO_STD, t))
  }

  /** pth_cancel_local */
  function CancelThread(g: Gs, t: Tid): (Gs, bool) {
    var st := g.StateOf(t);
    if !Exists(g, t) || st == DEAD then (g, false)
    else
      var b := g.tcb(t);
      var g1 := g.(tcb := Set(g.tcb, t, b.(cancelReq := true)));
      if !(b.cancelEnable && b.cancelAsync) then (g1, true)
      else if !Contains(LiveQueue(g, st), t) then (g1, false)
      else (Kick(SetQueue(g1, st, Without(LiveQueue(g, st), t)), t), true)
  }

  /** pth_abort_local */
  function AbortThread(g: Gs, t: Tid): Gs {
    if !Exists(g, t) then g
    else if g.StateOf(t) == DEAD then
      if g.tcb(t).joinable then ReapThread(g, t) else g
    else
      CancelThread(g.(tcb := Set(g.tcb, t, g.tcb(t).(joinable := false, cancelEnable := true, cancelAsync := true))), t).0
  }

  /** A REAP message, and the end of a local pth_join */
  function ReapThread(g: Gs, t: Tid): Gs {
    Free(g.(dq := Without(g.dq, t)), t)
  }

  predicate OpEnabled(g: Gs, op: Op) {
    match op
    case Adopt(t, block) => true
    case MoveNew(favour) => g.current == None
    case Dispatch => g.current == None && g.rq != []
    case AfterRun(how) => g.current.Some?
    case Promote(occurred) => g.current == None
    case Suspend(t) => true
    case Resume(t) => true
    case Favor(t) => true
    case Cancel(t) => true
    case Abort(t) => true
    case Reap(t) => Contains(g.dq, t)
  }

  function Apply(g: Gs, op: Op): Gs
    requires OpEnabled(g, op)
  {
    match op
    case Adopt(t, block) => AdoptThread(g, t, block)
    case MoveNew(favour) => MoveAllNew(g, favour)
    case Dispatch => DispatchNext(g)
    case AfterRun(how) => Settle(g, how)
    case Promote(occurred) => PromoteDue(g, occurred)
    case Suspend(t) => SuspendThread(g, t).0
    case Resume(t) => ResumeThread(g, t).0
    case Favor(t) => FavorThread(g, t)
    case Cancel(t) => CancelThread(g, t).0
    case Abort(t) => AbortThread(g, t)
    case Reap(t) => ReapThread(g, t)
  }

  // Where the threads are

  /** What the scheduler knows about one thread: how often it is in each place, and its state. */
  datatype Tally = Tally(n: int, r: int, w: int, s: int, d: int, run: int, freed: int, state: TState, joinable: bool)
  {
    function Queued(): int { n + r + w + s + d }

    function Places(): int { Queued() + run }

    predicate Agrees() {
      && (n > 0 ==> state == NEW)
      && (r > 0 || run > 0 ==> state == READY)
      && (w > 0 ==> state == WAITING)
      && (s > 0 ==> state != DEAD)
      && (d > 0 ==> state == DEAD && joinable)
    }
  }

  ghost function TallyOf(g: Gs, t: Tid): Tally {
    Tally(Count(g.nq, t), Count(g.rq, t), Count(g.wq, t), Count(g.sq, t), Count(g.dq, t),
          if g.current == Some(t) then 1 else 0, multiset(g.frees)[t], g.StateOf(t), g.tcb(t).joinable)
  }

  /** How many places of the scheduler hold `t`. */
  ghost function Held(g: Gs, t: Tid): int { TallyOf(g, t).Places() }

  /** How often `t` is held now or was freed before. */
  ghost function Ever(g: Gs, t: Tid): int { Held(g, t) + TallyOf(g, t).freed }

  ghost predicate SoundAt(g: Gs, t: Tid) { Held(g, t) <= 1 && TallyOf(g, t).Agrees() }

  /** Each thread is in at most one place, and its state names that place. */
  ghost predicate Sound(g: Gs) { forall t :: SoundAt(g, t) }

  /** `g'` is sound and holds or has freed exactly what `g` held or had freed. */
  ghost predicate Conserves(g: Gs, g': Gs) {
    forall t :: SoundAt(g', t) && Ever(g', t) == Ever(g, t)
  }

  lemma QueuedCounts(g: Gs, t: Tid)
    ensures Exists(g, t) <==> TallyOf(g, t).Queued() > 0
  {
    CountContains(g.nq, t);
    CountContains(g.rq, t);
    CountContains(g.wq, t);
    CountContains(g.sq, t);
    CountContains(g.dq, t);
  }

  // What each move does to the tally of a thread

  lemma MoveOneAt(g: Gs, t: Tid, favour: bool, u: Tid)
    requires Count(g.nq, t) > 0
    ensures var y := TallyOf(g, u);
            TallyOf(MoveOne(g, t, favour), u) == if u == t then y.(n := y.n - 1, r := y.r + 1, state := READY) else y
  {
    CountWithout(g.nq, t, u);
    CountInsert(g.rq, if favour then FavoritePrio(g.rq) else PRIO_STD, t, u);
  }

  lemma DispatchAt(g: Gs, u: Tid)
    requires g.rq != [] && g.current == None
    ensures var y := TallyOf(g, u);
            TallyOf(DispatchNext(g), u) == if u == g.rq[0].thread then y.(r := y.r - 1, run := 1) else y
  {
  }

  lemma SettleAt(g: Gs, how: Outcome, u: Tid)
    requires g.current.Some?
    ensures var y := TallyOf(g, u);
            TallyOf(Settle(g, how), u) ==
            if g.current != Some(u) then y
            else match how
                 case Waits => y.(run := 0, w := y.w + 1, state := WAITING)
                 case Yielded => y.(run := 0, r := y.r + 1)
                 case Exited =>
                   if y.joinable then y.(run := 0, d := y.d + 1, state := DEAD)
                   else y.(run := 0, freed := y.freed + 1, state := DEAD)
  {
    var t := g.current.value;
    CountRaise(g.rq, u);
    match how {
      case Exited => CountInsert(g.dq, PRIO_STD, t, u);
      case Waits => CountInsert(g.wq, g.tcb(t).prio, t, u);
      case Yielded => CountInsert(Raise(g.rq), g.tcb(t).prio, t, u);
    }
  }

  lemma PromoteOneAt(g: Gs, t: Tid, u: Tid)
    requires Count(g.wq, t) > 0
    ensures var y := TallyOf(g, u);
            TallyOf(PromoteOne(g, t), u) == if u == t then y.(w := y.w - 1, r := y.r + 1, state := READY) else y
  {
    CountWithout(g.wq, t, u);
    CountInsert(g.rq, g.tcb(t).prio + 1, t, u);
  }

  /** One more or one fewer in the live queue of state `st`. */
  function Shifted(y: Tally, st: TState, k: int): Tally {
    match st
    case NEW => y.(n := y.n + k)
    case READY => y.(r := y.r + k)
    case WAITING => y.(w := y.w + k)
    case DEAD => y
  }

  lemma TakeLiveAt(g: Gs, st: TState, t: Tid, u: Tid)
    requires Count(LiveQueue(g, st), t) > 0
    ensures TallyOf(SetQueue(g, st, Without(LiveQueue(g, st), t)), u) ==
            if u == t then Shifted(TallyOf(g, u), st, -1) else TallyOf(g, u)
  {
    CountWithout(LiveQueue(g, st), t, u);
  }

  lemma PutLiveAt(g: Gs, st: TState, prio: int, t: Tid, u: Tid)
    ensures TallyOf(SetQueue(g, st, Insert(LiveQueue(g, st), prio, t)), u) ==
            if u == t then Shifted(TallyOf(g, u), st, 1) else TallyOf(g, u)
  {
    CountInsert(LiveQueue(g, st), prio, t, u);
  }

  lemma PutSqAt(g: Gs, t: Tid, u: Tid)
    ensures var y := TallyOf(g, u);
            TallyOf(g.(sq := Insert(g.sq, PRIO_STD, t)), u) == if u == t then y.(s := y.s + 1) else y
  {
    CountInsert(g.sq, PRIO_STD, t, u);
  }

  lemma TakeSqAt(g: Gs, t: Tid, u: Tid)
    requires Count(g.sq, t) > 0
    ensures var y := TallyOf(g, u);
            TallyOf(g.(sq := Without(g.sq, t)), u) == if u == t then y.(s := y.s - 1) else y
  {
    CountWithout(g.sq, t, u);
  }

  lemma KickAt(g: Gs, t: Tid, u: Tid)
    ensures var y := TallyOf(g, u);
            TallyOf(Kick(g, t), u) ==
            if u != t then y
            else if y.joinable then y.(d := y.d + 1, state := DEAD)
            else y.(freed := y.freed + 1)
  {
    CountInsert(g.dq, PRIO_STD, t, u);
  }

  lemma ReapAt(g: Gs, t: Tid, u: Tid)
    requires Count(g.dq, t) > 0
    ensures var y := TallyOf(g, u);
            TallyOf(ReapThread(g, t), u) == if u == t then y.(d := y.d - 1, freed := y.freed + 1) else y
  {
    CountWithout(g.dq, t, u);
  }

  // No operation drops or duplicates a thread

  lemma MoveOneConserves(g: Gs, t: Tid, favour: bool)
    requires Sound(g) && Count(g.nq, t) > 0
    ensures Conserves(g, MoveOne(g, t, favour))
  {
    forall u ensures SoundAt(MoveOne(g, t, favour), u) && Ever(MoveOne(g, t, favour), u) == Ever(g, u) {
      assert SoundAt(g, u);
      MoveOneAt(g, t, favour, u);
    }
  }

  lemma LastIsCounted(q: seq<Entry<Tid>>)
    requires q != []
    ensures Count(q, q[|q| - 1].thread) > 0
  {
    CountContains(q, q[|q| - 1].thread);
  }

  lemma {:induction false} MoveNewConserves(g: Gs, favour: bool)
    requires Sound(g)
    ensures Conserves(g, MoveAllNew(g, favour))
    ensures MoveAllNew(g, favour).nq == [] && MoveAllNew(g, favour).current == g.current
    decreases |g.nq|
  {
    if g.nq != [] {
      var t := g.nq[|g.nq| - 1].thread;
      LastIsCounted(g.nq);
      MoveOneConserves(g, t, favour);
      assert IndexOf(g.nq, t) < |g.nq|;
      MoveNewConserves(MoveOne(g, t, favour), favour);
    }
  }

  lemma DispatchConserves(g: Gs)
    requires Sound(g) && g.current == None && g.rq != []
    ensures Conserves(g, DispatchNext(g))
  {
    forall u ensures SoundAt(DispatchNext(g), u) && Ever(DispatchNext(g), u) == Ever(g, u) {
      assert SoundAt(g, u);
      DispatchAt(g, u);
    }
  }

  lemma SettleConserves(g: Gs, how: Outcome)
    requires Sound(g) && g.current.Some?
    ensures Conserves(g, Settle(g, how))
  {
    forall u ensures SoundAt(Settle(g, how), u) && Ever(Settle(g, how), u) == Ever(g, u) {
      assert SoundAt(g, u);
      SettleAt(g, how, u);
    }
  }

  lemma PromoteOneConserves(g: Gs, t: Tid)
    requires Sound(g) && Count(g.wq, t) > 0
    ensures Conserves(g, PromoteOne(g, t))
  {
    forall u ensures SoundAt(PromoteOne(g, t), u) && Ever(PromoteOne(g, t), u) == Ever(g, u) {
      assert SoundAt(g, u);
      PromoteOneAt(g, t, u);
    }
  }

  /** The threads of `ts` are queued in `q`, each as often as it is listed. */
  ghost predicate Listed(ts: seq<Tid>, q: seq<Entry<Tid>>) {
    forall t :: multiset(ts)[t] <= Count(q, t)
  }

  lemma ListedTail(ts: seq<Tid>, q: seq<Entry<Tid>>)
    requires ts != [] && Listed(ts, q)
    ensures Listed(ts[1..], q) && Count(q, ts[0]) > 0 && Listed(ts[1..], Without(q, ts[0]))
  {
    assert ts == [ts[0]] + ts[1..];
    assert multiset(ts)[ts[0]] > 0;
    forall t ensures multiset(ts[1..])[t] <= Count(Without(q, ts[0]), t) && multiset(ts[1..])[t] <= Count(q, t) {
      CountWithout(q, ts[0], t);
    }
  }

  lemma {:induction false} PromoteEachConserves(g: Gs, ts: seq<Tid>, occurred: Tid -> bool)
    requires Sound(g) && Listed(ts, g.wq)
    ensures Conserves(g, PromoteEach(g, ts, occurred))
    ensures PromoteEach(g, ts, occurred).current == g.current
    decreases |ts|
  {
    if ts != [] {
      ListedTail(ts, g.wq);
      if Due(g, ts[0], occurred) {
        PromoteOneConserves(g, ts[0]);
        PromoteEachConserves(PromoteOne(g, ts[0]), ts[1..], occurred);
      } else {
        PromoteEachConserves(g, ts[1..], occurred);
      }
    }
  }

  lemma PromoteDueConserves(g: Gs, occurred: Tid -> bool)
    requires Sound(g)
    ensures Conserves(g, PromoteDue(g, occurred))
  {
    forall t ensures multiset(Threads(g.wq))[t] <= Count(g.wq, t) {
      CountThreads(g.wq, t);
    }
    PromoteEachConserves(g, Threads(g.wq), occurred);
  }

  lemma SuspendAt(g: Gs, t: Tid, u: Tid)
    requires SuspendThread(g, t).1
    ensures g.StateOf(t) != DEAD && Count(LiveQueue(g, g.StateOf(t)), t) > 0
    ensures var y := Shifted(TallyOf(g, u), g.StateOf(t), -1);
            TallyOf(SuspendThread(g, t).0, u) == if u == t then y.(s := y.s + 1) else TallyOf(g, u)
  {
    var st := g.StateOf(t);
    CountContains(LiveQueue(g, st), t);
    TakeLiveAt(g, st, t, u);
    PutSqAt(SetQueue(g, st, Without(LiveQueue(g, st), t)), t, u);
  }

  lemma SuspendConserves(g: Gs, t: Tid)
    requires Sound(g)
    ensures Conserves(g, SuspendThread(g, t).0)
  {
    if SuspendThread(g, t).1 {
      forall u ensures SoundAt(SuspendThread(g, t).0, u) && Ever(SuspendThread(g, t).0, u) == Ever(g, u) {
        assert SoundAt(g, u);
        SuspendAt(g, t, u);
        var y := Shifted(TallyOf(g, u), g.StateOf(t), -1);
        SoundByTally(g, SuspendThread(g, t).0, u, if u == t then y.(s := y.s + 1) else TallyOf(g, u));
      }
    } else {
      SoundConserves(g);
    }
  }

  lemma SoundByTally(g: Gs, g': Gs, u: Tid, y: Tally)
    requires TallyOf(g', u) == y && y.Places() <= 1 && y.Agrees()
    requires y.Places() + y.freed == Ever(g, u)
    ensures SoundAt(g', u) && Ever(g', u) == Ever(g, u)
  {
  }

  lemma SoundConserves(g: Gs)
    requires Sound(g)
    ensures Conserves(g, g)
  {
    assert forall u :: SoundAt(g, u);
  }

  lemma ResumeAt(g: Gs, t: Tid, u: Tid)
    requires ResumeThread(g, t).1
    ensures Count(g.sq, t) > 0
    ensures var y := Shifted(TallyOf(g, u), g.StateOf(t), 1);
            TallyOf(ResumeThread(g, t).0, u) == if u == t then y.(s := y.s - 1) else TallyOf(g, u)
  {
    var st := g.StateOf(t);
    CountContains(g.sq, t);
    PutLiveAt(g, st, PRIO_STD, t, u);
    TakeSqAt(SetQueue(g, st, Insert(LiveQueue(g, st), PRIO_STD, t)), t, u);
  }

  lemma ResumeConservesAt(g: Gs, t: Tid, u: Tid)
    requires SoundAt(g, t) && SoundAt(g, u) && ResumeThread(g, t).1
    ensures SoundAt(ResumeThread(g, t).0, u) && Ever(ResumeThread(g, t).0, u) == Ever(g, u)
  {
    ResumeAt(g, t, u);
    var y := Shifted(TallyOf(g, u), g.StateOf(t), 1);
    SoundByTally(g, ResumeThread(g, t).0, u, if u == t then y.(s := y.s - 1) else TallyOf(g, u));
  }

  lemma ResumeConserves(g: Gs, t: Tid)
    requires Sound(g)
    ensures Conserves(g, ResumeThread(g, t).0)
  {
    if ResumeThread(g, t).1 {
      forall u ensures SoundAt(ResumeThread(g, t).0, u) && Ever(ResumeThread(g, t).0, u) == Ever(g, u) {
        assert SoundAt(g, t) && SoundAt(g, u);
        ResumeConservesAt(g, t, u);
      }
    } else {
      SoundConserves(g);
    }
  }

  lemma FavorConserves(g: Gs, t: Tid)
    requires Sound(g)
    ensures Conserves(g, FavorThread(g, t))
  {
    var st := g.StateOf(t);
    var q := LiveQueue(g, st);
    CountContains(q, t);
    forall u ensures SoundAt(FavorThread(g, t), u) && Ever(FavorThread(g, t), u) == Ever(g, u) {
      assert SoundAt(g, u);
      if Contains(q, t) {
        CountFavorite(q, t, u);
        assert TallyOf(FavorThread(g, t), u) == TallyOf(g, u);
      }
    }
  }

  function KickLive(g: Gs, t: Tid): Gs {
    var st := g.StateOf(t);
    Kick(SetQueue(g, st, Without(LiveQueue(g, st), t)), t)
  }

  lemma KickLiveAt(g: Gs, t: Tid, u: Tid)
    requires g.StateOf(t) != DEAD && Count(LiveQueue(g, g.StateOf(t)), t) > 0
    ensures var y := Shifted(TallyOf(g, u), g.StateOf(t), -1);
            TallyOf(KickLive(g, t), u) ==
            if u != t then TallyOf(g, u)
            else if y.joinable then y.(d := y.d + 1, state := DEAD)
            else y.(freed := y.freed + 1)
  {
    var st := g.StateOf(t);
    TakeLiveAt(g, st, t, u);
    KickAt(SetQueue(g, st, Without(LiveQueue(g, st), t)), t, u);
  }

  /** Taking a thread off its live queue and kicking it out frees it or moves it to the dead queue. */
  lemma KickConserves(g: Gs, t: Tid)
    requires Sound(g) && g.StateOf(t) != DEAD && Count(LiveQueue(g, g.StateOf(t)), t) > 0
    ensures Conserves(g, KickLive(g, t))
  {
    forall u ensures SoundAt(KickLive(g, t), u) && Ever(KickLive(g, t), u) == Ever(g, u) {
      assert SoundAt(g, u);
      KickLiveAt(g, t, u);
    }
  }

  /** Changing the cancellation flags of a thread moves nobody. */
  lemma FlagsConserve(g: Gs, t: Tid, b: Tcb)
    requires Sound(g) && b.state == g.StateOf(t) && (b.joinable == g.tcb(t).joinable || b.state != DEAD)
    ensures Conserves(g, g.(tcb := Set(g.tcb, t, b)))
  {
    var g' := g.(tcb := Set(g.tcb, t, b));
    forall u ensures SoundAt(g', u) && Ever(g', u) == Ever(g, u) {
      assert SoundAt(g, u);
      assert TallyOf(g', u) == if u == t then TallyOf(g, u).(joinable := b.joinable) else TallyOf(g, u);
    }
  }

  lemma CancelConserves(g: Gs, t: Tid)
    requires Sound(g)
    ensures Conserves(g, CancelThread(g, t).0)
  {
    var st, b := g.StateOf(t), g.tcb(t).(cancelReq := true);
    var g1 := g.(tcb := Set(g.tcb, t, b));
    FlagsConserve(g, t, b);
    CountContains(LiveQueue(g, st), t);
    assert LiveQueue(g1, st) == LiveQueue(g, st) && g1.StateOf(t) == st;
    if st != DEAD && Contains(LiveQueue(g, st), t) {
      KickConserves(g1, t);
    }
  }

  lemma ReapConserves(g: Gs, t: Tid)
    requires Sound(g) && Contains(g.dq, t)
    ensures Conserves(g, ReapThread(g, t))
  {
    CountContains(g.dq, t);
    forall u ensures SoundAt(ReapThread(g, t), u) && Ever(ReapThread(g, t), u) == Ever(g, u) {
      assert SoundAt(g, u);
      ReapAt(g, t, u);
    }
  }

  lemma DeadIsInDq(g: Gs, t: Tid)
    requires Sound(g) && Exists(g, t) && g.StateOf(t) == DEAD
    ensures Contains(g.dq, t)
  {
    assert SoundAt(g, t);
    CountContains(g.nq, t);
    CountContains(g.rq, t);
    CountContains(g.wq, t);
    CountContains(g.sq, t);
  }

  lemma AbortConserves(g: Gs, t: Tid)
    requires Sound(g)
    ensures Conserves(g, AbortThread(g, t))
  {
    if Exists(g, t) {
      if g.StateOf(t) == DEAD {
        DeadIsInDq(g, t);
        ReapConserves(g, t);
      } else {
        var b := g.tcb(t).(joinable := false, cancelEnable := true, cancelAsync := true);
        FlagsConserve(g, t, b);
        CancelConserves(g.(tcb := Set(g.tcb, t, b)), t);
      }
    }
  }

  lemma AdoptAt(g: Gs, t: Tid, block: Tcb, u: Tid)
    ensures var y := TallyOf(g, u);
            TallyOf(AdoptThread(g, t, block), u) ==
            if u == t then y.(n := y.n + 1, state := NEW, joinable := block.joinable) else y
  {
    CountInsert(g.nq, block.prio, t, u);
  }

  lemma AdoptAddsOne(g: Gs, t: Tid, block: Tcb)
    requires Sound(g) && Held(g, t) == 0
    ensures var g' := AdoptThread(g, t, block);
            Sound(g') && forall u :: Ever(g', u) == Ever(g, u) + if u == t then 1 else 0
  {
    var g' := AdoptThread(g, t, block);
    forall u ensures SoundAt(g', u) && Ever(g', u) == Ever(g, u) + if u == t then 1 else 0 {
      assert SoundAt(g, u);
      AdoptAt(g, t, block, u);
    }
  }

  /**
   Every operation keeps each thread in one place that agrees with its state, and whoever was held is
   still held or was freed, exactly once; only adoption adds a thread.
   */
  lemma OpConserves(g: Gs, op: Op)
    requires Sound(g) && OpEnabled(g, op) && (op.Adopt? ==> Held(g, op.t) == 0)
    ensures Sound(Apply(g, op))
    ensures forall u :: Ever(Apply(g, op), u) == Ever(g, u) + if op.Adopt? && u == op.t then 1 else 0
  {
    match op
    case Adopt(t, block) => AdoptAddsOne(g, t, block);
    case MoveNew(favour) => MoveNewConserves(g, favour);
    case Dispatch => DispatchConserves(g);
    case AfterRun(how) => SettleConserves(g, how);
    case Promote(occurred) => PromoteDueConserves(g, occurred);
    case Suspend(t) => SuspendConserves(g, t);
    case Resume(t) => ResumeConserves(g, t);
    case Favor(t) => FavorConserves(g, t);
    case Cancel(t) => CancelConserves(g, t);
    case Abort(t) => AbortConserves(g, t);
    case Reap(t) => ReapConserves(g, t);
  }

  /** A resumed thread always has a queue to go to. */
  lemma ResumeFindsAQueue(g: Gs, t: Tid)
    requires Sound(g) && Contains(g.sq, t)
    ensures g.StateOf(t) in {NEW, READY, WAITING}
    ensures Contains(LiveQueue(ResumeThread(g, t).0, g.StateOf(t)), t)
  {
    CountContains(g.sq, t);
    assert SoundAt(g, t);
    var q := LiveQueue(g, g.StateOf(t));
    CountInsert(q, PRIO_STD, t, t);
    CountContains(Insert(q, PRIO_STD, t), t);
  }

  // How new threads are handed to the ready queue

  lemma LastOut(q: seq<Entry<Tid>>)
    requires Distinct(q) && q != []
    ensures Without(q, q[|q| - 1].thread) == q[..|q| - 1]
  {
    WithoutAt(q, q[|q| - 1].thread, |q| - 1);
  }

  /** The ready queue after favoured new threads entered it: the tail of `nq` first, each in front. */
  function FavouredInto(nq: seq<Entry<Tid>>, rq: seq<Entry<Tid>>): seq<Entry<Tid>> {
    if nq == [] then rq
    else FavouredInto(nq[..|nq| - 1], [Entry(nq[|nq| - 1].thread, FavoritePrio(rq))] + rq)
  }

  lemma {:induction false} FavouredStepByStep(g: Gs)
    requires Distinct(g.nq) && Sorted(g.rq)
    ensures MoveAllNew(g, true).rq == FavouredInto(g.nq, g.rq) && Sorted(MoveAllNew(g, true).rq)
    decreases |g.nq|
  {
    if g.nq != [] {
      LastOut(g.nq);
      InsertFavorite(g.rq, g.nq[|g.nq| - 1].thread);
      FavouredStepByStep(MoveOne(g, g.nq[|g.nq| - 1].thread, true));
    }
  }

  lemma {:induction false} FavouredKeepsOrder(nq: seq<Entry<Tid>>, rq: seq<Entry<Tid>>)
    ensures Threads(FavouredInto(nq, rq)) == Threads(nq) + Threads(rq)
    decreases |nq|
  {
    if nq == [] {
      assert Threads(nq) + Threads(rq) == Threads(rq);
    } else {
      var n := |nq| - 1;
      var e := Entry(nq[n].thread, FavoritePrio(rq));
      FavouredKeepsOrder(nq[..n], [e] + rq);
      assert Threads(nq[..n]) + Threads([e] + rq) == Threads(nq) + Threads(rq);
    }
  }

  /** With favoured new threads, the ready queue starts with the new queue, in its order. */
  lemma FavouredNewComeFirst(g: Gs)
    requires Distinct(g.nq) && Sorted(g.rq)
    ensures Threads(MoveAllNew(g, true).rq) == Threads(g.nq) + Threads(g.rq)
    ensures Sorted(MoveAllNew(g, true).rq)
  {
    FavouredStepByStep(g);
    FavouredKeepsOrder(g.nq, g.rq);
  }

  /** The threads of `q`, last one first, all at the standard priority. */
  function ReversedAtStd(q: seq<Entry<Tid>>): seq<Entry<Tid>> {
    if q == [] then [] else [Entry(q[|q| - 1].thread, PRIO_STD)] + ReversedAtStd(q[..|q| - 1])
  }

  lemma PlainInsert(q: seq<Entry<Tid>>, t: Tid)
    requires Sorted(q)
    ensures var k, r, e := Rank(q, PRIO_STD), Insert(q, PRIO_STD, t), Entry(t, PRIO_STD);
            r == q[..k] + [e] + q[k..] && Sorted(r) && Rank(r, PRIO_STD) == k + 1
  {
    var k := Rank(q, PRIO_STD);
    SpliceParts(q, k, Entry(t, PRIO_STD));
    InsertIsStable(q, PRIO_STD, t);
  }

  function PlainInto(nq: seq<Entry<Tid>>, rq: seq<Entry<Tid>>): seq<Entry<Tid>> {
    if nq == [] then rq else PlainInto(nq[..|nq| - 1], Insert(rq, PRIO_STD, nq[|nq| - 1].thread))
  }

  lemma {:induction false} PlainStepByStep(g: Gs)
    requires Distinct(g.nq)
    ensures MoveAllNew(g, false).rq == PlainInto(g.nq, g.rq)
    decreases |g.nq|
  {
    if g.nq != [] {
      LastOut(g.nq);
      PlainStepByStep(MoveOne(g, g.nq[|g.nq| - 1].thread, false));
    }
  }

  lemma {:induction false} PlainReverses(nq: seq<Entry<Tid>>, q: seq<Entry<Tid>>)
    requires Sorted(q)
    ensures var k := Rank(q, PRIO_STD); PlainInto(nq, q) == q[..k] + ReversedAtStd(nq) + q[k..]
    decreases |nq|
  {
    var k := Rank(q, PRIO_STD);
    if nq == [] {
      Whole(q, k);
    } else {
      var n := |nq| - 1;
      PlainInsert(q, nq[n].thread);
      PlainReverses(nq[..n], Insert(q, PRIO_STD, nq[n].thread));
      PartsRegroup(q, k, Entry(nq[n].thread, PRIO_STD), ReversedAtStd(nq[..n]));
    }
  }

  /**
   Without favouring, the new threads enter behind everything of at least standard priority, in
   reverse order, whatever priority they were spawned with.
   */
  lemma PlainNewComeReversed(g: Gs)
    requires Distinct(g.nq) && Sorted(g.rq)
    ensures var k := Rank(g.rq, PRIO_STD);
            MoveAllNew(g, false).rq == g.rq[..k] + ReversedAtStd(g.nq) + g.rq[k..]
  {
    PlainStepByStep(g);
    PlainReverses(g.nq, g.rq);
  }

  lemma Whole<X>(q: seq<X>, k: nat)
    requires k <= |q|
    ensures q == q[..k] + [] + q[k..]
  {
  }

  lemma PartsRegroup<X>(q: seq<X>, k: nat, e: X, r: seq<X>)
    requires k <= |q|
    ensures var q1 := q[..k] + [e] + q[k..]; q1[..k + 1] + r + q1[k + 1..] == q[..k] + ([e] + r) + q[k..]
  {
  }

  lemma PromoteStep(g: Gs, i: nat, occurred: Tid -> bool)
    requires Distinct(g.wq) && i < |g.wq|
    ensures var t := g.wq[i].thread;
            PromoteEach(g, Threads(g.wq)[i..], occurred) ==
            if Due(g, t, occurred) then PromoteEach(PromoteOne(g, t), Threads(PromoteOne(g, t).wq)[i..], occurred)
            else PromoteEach(g, Threads(g.wq)[i + 1..], occurred)
  {
    var t := g.wq[i].thread;
    WithoutAt(g.wq, t, i);
    assert Threads(g.wq)[i..][1..] == Threads(g.wq)[i + 1..];
    assert Threads(PromoteOne(g, t).wq)[i..] == Threads(g.wq)[i + 1..];
  }
}
