/**
 How long a ready thread can wait for the processor. Every pass of the scheduler loop raises the whole
 ready queue by one, while nothing enters the queue above priority `CEILING`: a thread re-enters at its
 own priority, a woken one at its own priority plus one, a new or resumed one at the standard priority.
 */
module BoundedWaiting {
  import opened Basics
  import opened PriorityOrder
  import opened SchedulerOps

  const CEILING := PRIO_MAX + 1

  function Pos(q: seq<Entry<Tid>>, t: Tid): nat { IndexOf(q, t) }

  function PrioAt(q: seq<Entry<Tid>>, t: Tid): int
    requires Contains(q, t)
  {
    q[IndexOf(q, t)].prio
  }

  /**
   An upper bound on the dispatches up to and including that of `t`: below the ceiling, the passes it
   takes to get there and a full queue; from the ceiling on, just the threads still ahead.
   */
  function Delay(q: seq<Entry<Tid>>, t: Tid, n: nat, running: bool): int
    requires Contains(q, t)
  {
    if PrioAt(q, t) >= CEILING then Pos(q, t) + 1
    else CEILING - PrioAt(q, t) + n - if running then 1 else 0
  }

  // What the queue operations do to the delay

  lemma FoundAt(q: seq<Entry<Tid>>, t: Tid, k: nat)
    requires k < |q| && q[k].thread == t && forall i :: 0 <= i < k ==> q[i].thread != t
    ensures Contains(q, t) && IndexOf(q, t) == k
  {
  }

  lemma InsertMoves(q: seq<Entry<Tid>>, prio: int, u: Tid, t: Tid)
    requires Sorted(q) && Contains(q, t) && u != t
    ensures var r := Insert(q, prio, u);
            && Contains(r, t) && PrioAt(r, t) == PrioAt(q, t)
            && (PrioAt(q, t) >= prio ==> Pos(r, t) == Pos(q, t))
  {
    var k, m := IndexOf(q, t), Rank(q, prio);
    assert m <= k ==> q[m].prio >= q[k].prio;
    FoundAt(Insert(q, prio, u), t, if m <= k then k + 1 else k);
  }

  lemma InsertDelays(q: seq<Entry<Tid>>, prio: int, u: Tid, t: Tid, n: nat, running: bool)
    requires Sorted(q) && Contains(q, t) && u != t && prio <= CEILING
    ensures Contains(Insert(q, prio, u), t) && Sorted(Insert(q, prio, u))
    ensures Delay(Insert(q, prio, u), t, n, running) <= Delay(q, t, n, running)
  {
    InsertIsStable(q, prio, u);
    InsertMoves(q, prio, u, t);
  }

  lemma CutKeepsSorted(q: seq<Entry<Tid>>, k: nat)
    requires Sorted(q) && k < |q|
    ensures Sorted(Cut(q, k))
  {
  }

  lemma WithoutMoves(q: seq<Entry<Tid>>, u: Tid, t: Tid)
    requires Contains(q, t) && u != t
    ensures var r := Without(q, u);
            Contains(r, t) && PrioAt(r, t) == PrioAt(q, t) && Pos(r, t) <= Pos(q, t)
  {
    var k, m := IndexOf(q, t), IndexOf(q, u);
    if m < |q| {
      FoundAt(Cut(q, m), t, if m < k then k - 1 else k);
    }
  }

  lemma WithoutDelays(q: seq<Entry<Tid>>, u: Tid, t: Tid, n: nat, running: bool)
    requires Sorted(q) && Contains(q, t) && u != t
    ensures Contains(Without(q, u), t) && Sorted(Without(q, u))
    ensures Delay(Without(q, u), t, n, running) <= Delay(q, t, n, running)
  {
    WithoutMoves(q, u, t);
    if IndexOf(q, u) < |q| {
      CutKeepsSorted(q, IndexOf(q, u));
    }
  }

  lemma TailDelays(q: seq<Entry<Tid>>, t: Tid, n: nat)
    requires q != [] && Sorted(q) && Contains(q[1..], t) && q[0].thread != t
    ensures Contains(q, t) && Sorted(q[1..])
    ensures Delay(q[1..], t, n, true) + 1 <= Delay(q, t, n, false)
  {
    var k := IndexOf(q[1..], t);
    assert q[k + 1] == q[1..][k];
    FoundAt(q, t, k + 1);
  }

  lemma RaiseDelays(q: seq<Entry<Tid>>, t: Tid, n: nat)
    requires Sorted(q) && Contains(q, t) && |q| <= n
    ensures Contains(Raise(q), t) && Sorted(Raise(q))
    ensures Delay(Raise(q), t, n, false) <= Delay(q, t, n, true)
  {
    FoundAt(Raise(q), t, IndexOf(q, t));
  }

  // What the scheduler's operations do to the delay

  /** Thread priorities are at most the maximum the library defines. */
  ghost predicate PrioritiesCapped(g: Gs) { forall u {:trigger g.PrioOf(u)} {:trigger g.tcb(u)} :: g.PrioOf(u) <= PRIO_MAX }

  ghost predicate Ordered(g: Gs) { Sound(g) && Sorted(g.rq) && PrioritiesCapped(g) }

  /** What a scheduler is used with: new threads put first, as is the default, and yield-to. */
  datatype Policy = Policy(favourNew: bool, yieldTo: bool)

  const PLAIN := Policy(false, false)

  /** Threads are spawned at addresses that are not in use; everything else is allowed. */
  ghost predicate Allowed(g: Gs, op: Op, pol: Policy) {
    match op
    case Adopt(t, block) => Held(g, t) == 0 && block.prio <= PRIO_MAX
    case MoveNew(favour) => favour ==> pol.favourNew
    case Favor(t) => pol.yieldTo
    case _ => true
  }

  function Wait(g: Gs, t: Tid, n: nat): int
    requires Contains(g.rq, t)
  {
    Delay(g.rq, t, n, g.current.Some?)
  }

  /** `t` is still in the ready queue of `g'` and no further from its turn. */
  ghost predicate NoLater(g: Gs, g': Gs, t: Tid, n: nat)
    requires Contains(g.rq, t)
  {
    Contains(g'.rq, t) && Sorted(g'.rq) && PrioritiesCapped(g') && Wait(g', t, n) <= Wait(g, t, n)
  }

  lemma InTwoPlaces(g: Gs, t: Tid)
    requires Sound(g) && Contains(g.rq, t)
    ensures Count(g.nq, t) == 0 && Count(g.wq, t) == 0 && Count(g.sq, t) == 0 && g.current != Some(t)
  {
    CountContains(g.rq, t);
    assert SoundAt(g, t);
  }

  lemma MoveOneDelays(g: Gs, u: Tid, t: Tid, n: nat)
    requires Ordered(g) && Contains(g.rq, t) && Count(g.nq, u) > 0
    ensures NoLater(g, MoveOne(g, u, false), t, n) && Sound(MoveOne(g, u, false))
  {
    InTwoPlaces(g, t);
    InsertDelays(g.rq, PRIO_STD, u, t, n, g.current.Some?);
    MoveOneConserves(g, u, false);
  }

  lemma {:induction false} MoveNewDelays(g: Gs, t: Tid, n: nat)
    requires Ordered(g) && Contains(g.rq, t)
    ensures NoLater(g, MoveAllNew(g, false), t, n)
    decreases |g.nq|
  {
    if g.nq != [] {
      var u := g.nq[|g.nq| - 1].thread;
      LastIsCounted(g.nq);
      MoveOneDelays(g, u, t, n);
      assert IndexOf(g.nq, u) < |g.nq|;
      MoveNewDelays(MoveOne(g, u, false), t, n);
    }
  }

  lemma PromoteOneDelays(g: Gs, u: Tid, t: Tid, n: nat)
    requires Ordered(g) && Contains(g.rq, t) && Count(g.wq, u) > 0
    ensures NoLater(g, PromoteOne(g, u), t, n) && Sound(PromoteOne(g, u))
  {
    InTwoPlaces(g, t);
    assert g.PrioOf(u) <= PRIO_MAX;
    InsertDelays(g.rq, g.PrioOf(u) + 1, u, t, n, g.current.Some?);
    PromoteOneConserves(g, u);
  }

  lemma {:induction false} PromoteDelays(g: Gs, ts: seq<Tid>, occurred: Tid -> bool, t: Tid, n: nat)
    requires Ordered(g) && Contains(g.rq, t) && Listed(ts, g.wq)
    ensures NoLater(g, PromoteEach(g, ts, occurred), t, n)
    decreases |ts|
  {
    if ts != [] {
      ListedTail(ts, g.wq);
      if Due(g, ts[0], occurred) {
        PromoteOneDelays(g, ts[0], t, n);
        PromoteDelays(PromoteOne(g, ts[0]), ts[1..], occurred, t, n);
      } else {
        PromoteDelays(g, ts[1..], occurred, t, n);
      }
    }
  }

  lemma SettleDelays(g: Gs, how: Outcome, t: Tid, n: nat)
    requires Ordered(g) && Contains(g.rq, t) && g.current.Some? && |g.rq| <= n
    ensures NoLater(g, Settle(g, how), t, n)
  {
    InTwoPlaces(g, t);
    RaiseDelays(g.rq, t, n);
    SettleKeepsPriorities(g, how);
    if how == Yielded {
      var u := g.current.value;
      assert g.PrioOf(u) <= PRIO_MAX;
      InsertDelays(Raise(g.rq), g.PrioOf(u), u, t, n, false);
    }
  }

  lemma SettleKeepsPriorities(g: Gs, how: Outcome)
    requires PrioritiesCapped(g) && g.current.Some?
    ensures PrioritiesCapped(Settle(g, how))
  {
    assert g.PrioOf(g.current.value) <= PRIO_MAX;
  }

  lemma ResumePuts(g: Gs, u: Tid)
    requires PrioritiesCapped(g)
    ensures var g' := ResumeThread(g, u).0;
            && (g'.rq == g.rq || (Contains(g.sq, u) && g'.rq == Insert(g.rq, PRIO_STD, u)))
            && g'.current == g.current && PrioritiesCapped(g')
  {
    var g' := ResumeThread(g, u).0;
    assert g'.tcb == g.tcb && g'.current == g.current by {
      match g.StateOf(u)
      case NEW =>
      case READY =>
      case WAITING =>
      case DEAD =>
    }
    assert forall x :: g'.PrioOf(x) == g.PrioOf(x);
  }

  lemma ResumeDelays(g: Gs, u: Tid, t: Tid, n: nat)
    requires Ordered(g) && Contains(g.rq, t)
    ensures NoLater(g, ResumeThread(g, u).0, t, n)
  {
    ResumePuts(g, u);
    if ResumeThread(g, u).0.rq != g.rq {
      InTwoPlaces(g, t);
      CountContains(g.sq, u);
      InsertDelays(g.rq, PRIO_STD, u, t, n, g.current.Some?);
    }
  }

  /** A thread taken off the ready queue is not in it any more. */
  lemma TakenIsGone(g: Gs, t: Tid)
    requires Sound(g) && Contains(g.rq, t)
    ensures !Contains(Without(g.rq, t), t)
  {
    CountContains(g.rq, t);
    assert SoundAt(g, t);
    CountWithout(g.rq, t, t);
    CountContains(Without(g.rq, t), t);
  }

  /** If at most `u` left the ready queue and `t` did not, `t` waits no longer than before. */
  lemma RemovalDelays(g: Gs, g': Gs, u: Tid, t: Tid, n: nat)
    requires Ordered(g) && Contains(g.rq, t) && Contains(g'.rq, t)
    requires g'.rq == g.rq || g'.rq == Without(g.rq, u)
    requires PrioritiesCapped(g') && g'.current == g.current
    ensures NoLater(g, g', t, n)
  {
    if g'.rq != g.rq {
      TakenIsGone(g, t);
      WithoutDelays(g.rq, u, t, n, g.current.Some?);
    }
  }

  lemma SuspendTakes(g: Gs, u: Tid)
    requires PrioritiesCapped(g)
    ensures var g' := SuspendThread(g, u).0;
            (g'.rq == g.rq || g'.rq == Without(g.rq, u)) && PrioritiesCapped(g') && g'.current == g.current
  {
    var g' := SuspendThread(g, u).0;
    assert g'.tcb == g.tcb && g'.current == g.current by {
      match g.StateOf(u)
      case NEW =>
      case READY =>
      case WAITING =>
      case DEAD =>
    }
    assert forall x :: g'.PrioOf(x) == g.PrioOf(x);
  }

  lemma SuspendDelays(g: Gs, u: Tid, t: Tid, n: nat)
    requires Ordered(g) && Contains(g.rq, t) && Contains(SuspendThread(g, u).0.rq, t)
    ensures NoLater(g, SuspendThread(g, u).0, t, n)
  {
    SuspendTakes(g, u);
    RemovalDelays(g, SuspendThread(g, u).0, u, t, n);
  }

  lemma CancelTakes(g: Gs, u: Tid)
    ensures var g' := CancelThread(g, u).0;
            (g'.rq == g.rq || g'.rq == Without(g.rq, u)) && g'.current == g.current
    ensures CancelThread(g, u).0.PrioOf(u) == g.PrioOf(u)
    ensures forall x :: x != u ==> CancelThread(g, u).0.tcb(x) == g.tcb(x)
  {
  }

  lemma CappedElsewhere(g: Gs, g': Gs, u: Tid)
    requires PrioritiesCapped(g) && g'.PrioOf(u) == g.PrioOf(u) && forall x :: x != u ==> g'.tcb(x) == g.tcb(x)
    ensures PrioritiesCapped(g')
  {
  }

  lemma CancelDelays(g: Gs, u: Tid, t: Tid, n: nat)
    requires Ordered(g) && Contains(g.rq, t) && Contains(CancelThread(g, u).0.rq, t)
    ensures NoLater(g, CancelThread(g, u).0, t, n)
  {
    CancelTakes(g, u);
    CappedElsewhere(g, CancelThread(g, u).0, u);
    RemovalDelays(g, CancelThread(g, u).0, u, t, n);
  }

  lemma AbortDelays(g: Gs, u: Tid, t: Tid, n: nat)
    requires Ordered(g) && Contains(g.rq, t) && Contains(AbortThread(g, u).rq, t)
    ensures NoLater(g, AbortThread(g, u), t, n)
  {
    if Exists(g, u) && g.StateOf(u) != DEAD {
      var b := g.tcb(u).(joinable := false, cancelEnable := true, cancelAsync := true);
      var g1 := g.(tcb := Set(g.tcb, u, b));
      FlagsConserve(g, u, b);
      assert g.PrioOf(u) <= PRIO_MAX;
      assert Ordered(g1) && g1.rq == g.rq;
      CancelDelays(g1, u, t, n);
    }
  }

  /** No plain operation makes the wait longer, and a dispatch of another thread makes it shorter. */
  lemma OpDelays(g: Gs, op: Op, t: Tid, n: nat)
    requires Ordered(g) && OpEnabled(g, op) && Allowed(g, op, PLAIN) && |g.rq| <= n
    requires Contains(g.rq, t) && Contains(Apply(g, op).rq, t)
    ensures Ordered(Apply(g, op))
    ensures Wait(Apply(g, op), t, n) + (if op.Dispatch? then 1 else 0) <= Wait(g, t, n)
  {
    OpConserves(g, op);
    match op
    case Adopt(u, block) =>
    case MoveNew(favour) => MoveNewDelays(g, t, n);
    case Dispatch => DispatchDelays(g, t, n);
    case AfterRun(how) => SettleDelays(g, how, t, n);
    case Promote(occurred) =>
      forall u ensures multiset(Threads(g.wq))[u] <= Count(g.wq, u) {
        CountThreads(g.wq, u);
      }
      PromoteDelays(g, Threads(g.wq), occurred, t, n);
    case Suspend(u) => SuspendDelays(g, u, t, n);
    case Resume(u) => ResumeDelays(g, u, t, n);
    case Cancel(u) => CancelDelays(g, u, t, n);
    case Abort(u) => AbortDelays(g, u, t, n);
    case Reap(u) =>
  }

  lemma DispatchDelays(g: Gs, t: Tid, n: nat)
    requires Ordered(g) && OpEnabled(g, Dispatch) && Contains(g.rq, t) && Contains(g.rq[1..], t)
    ensures Wait(DispatchNext(g), t, n) + 1 <= Wait(g, t, n) && Sorted(g.rq[1..])
  {
    CountContains(g.rq, t);
    CountContains(g.rq[1..], t);
    assert SoundAt(g, t);
    TailDelays(g.rq, t, n);
  }

  // Runs

  function Dispatches(ops: seq<Op>): nat {
    if ops == [] then 0 else (if ops[0].Dispatch? then 1 else 0) + Dispatches(ops[1..])
  }

  /** Played from `g`, the operations are allowed and leave `t` in the ready queue, of at most `n` threads. */
  ghost predicate KeepsWaiting(g: Gs, ops: seq<Op>, t: Tid, n: nat, pol: Policy)
    decreases |ops|
  {
    && Contains(g.rq, t) && |g.rq| <= n
    && (ops != [] ==>
          && OpEnabled(g, ops[0]) && Allowed(g, ops[0], pol)
          && KeepsWaiting(Apply(g, ops[0]), ops[1..], t, n, pol))
  }

  lemma {:induction false} DispatchesFitTheWait(g: Gs, ops: seq<Op>, t: Tid, n: nat)
    requires Ordered(g) && KeepsWaiting(g, ops, t, n, PLAIN)
    ensures Dispatches(ops) + 1 <= Wait(g, t, n)
    decreases |ops|
  {
    if ops != [] {
      OpDelays(g, ops[0], t, n);
      DispatchesFitTheWait(Apply(g, ops[0]), ops[1..], t, n);
    }
  }

  /**
   A thread that is ready with effective priority `e` among at most `n` ready threads is dispatched
   within max(0, 6 - e) + n dispatches: in no run can it still be waiting after that many, if new
   threads are not favoured and nobody yields to another thread.
   */
  lemma WaitingIsBounded(g: Gs, ops: seq<Op>, t: Tid, n: nat)
    requires Ordered(g) && KeepsWaiting(g, ops, t, n, PLAIN)
    ensures var e := PrioAt(g.rq, t);
            Dispatches(ops) < (if e < CEILING then CEILING - e else 0) + n
  {
    DispatchesFitTheWait(g, ops, t, n);
  }

  // Favoured new threads lift the bound, and so does yield-to

  /** `ops` are allowed, can be played from `g` and lead to `g'`. */
  ghost predicate Leads(g: Gs, ops: seq<Op>, pol: Policy, g': Gs)
    decreases |ops|
  {
    if ops == [] then g == g'
    else OpEnabled(g, ops[0]) && Allowed(g, ops[0], pol) && Leads(Apply(g, ops[0]), ops[1..], pol, g')
  }

  /** All the while, `t` stays in the ready queue, of at most `n` threads. */
  ghost predicate Starves(g: Gs, ops: seq<Op>, t: Tid, n: nat, pol: Policy, g': Gs) {
    Leads(g, ops, pol, g') && KeepsWaiting(g, ops, t, n, pol)
  }

  /** `t` is alone in the ready queue, and the scheduler holds nobody else but the running thread, if any, and the new ones. */
  ghost predicate Alone(g: Gs, t: Tid) {
    |g.rq| == 1 && g.rq[0].thread == t && g.wq == [] && g.sq == [] && g.dq == []
  }

  /** Detached thread `a` runs and `t` is ready. */
  ghost predicate Starving(g: Gs, a: Tid, t: Tid) {
    Alone(g, t) && g.nq == [] && g.current == Some(a) && a != t && !g.tcb(a).joinable
  }

  const DETACHED := Tcb(NEW, PRIO_STD, false, false, true, false)

  function SpawnAndExit(b: Tid): seq<Op> {
    [Adopt(b, DETACHED), AfterRun(Exited), MoveNew(true), Dispatch]
  }

  lemma Spawn(g: Gs, a: Tid, b: Tid, t: Tid)
    requires Starving(g, a, t) && b != t && b != a
    ensures var g' := Apply(g, Adopt(b, DETACHED));
            && Held(g, b) == 0 && Alone(g', t) && g'.nq == [Entry(b, PRIO_STD)] && g'.current == Some(a)
            && !g'.tcb(a).joinable && !g'.tcb(b).joinable
  {
    var g' := Apply(g, Adopt(b, DETACHED));
    assert g'.nq == [Entry(b, PRIO_STD)];
    assert Count(g.rq, b) == 0 by {
      assert g.rq[1..] == [];
    }
  }

  lemma ExitDetached(g: Gs, a: Tid, b: Tid, t: Tid)
    requires Alone(g, t) && g.nq == [Entry(b, PRIO_STD)] && g.current == Some(a) && a != b && !g.tcb(a).joinable && !g.tcb(b).joinable
    ensures var g' := Apply(g, AfterRun(Exited));
            Alone(g', t) && g'.nq == g.nq && g'.current == None && !g'.tcb(b).joinable
  {
  }

  lemma FavourNew(g: Gs, b: Tid, t: Tid)
    requires Alone(g, t) && g.nq == [Entry(b, PRIO_STD)] && g.current == None && !g.tcb(b).joinable && b != t
    ensures var g' := Apply(g, MoveNew(true));
            && |g'.rq| == 2 && g'.rq[0].thread == b && g'.rq[1].thread == t && g'.current == None && !g'.tcb(b).joinable
            && g'.nq == [] && g'.wq == [] && g'.sq == [] && g'.dq == []
  {
    var g1 := MoveOne(g, b, true);
    InsertFavorite(g.rq, b);
    assert g.nq[|g.nq| - 1].thread == b && g1.nq == [];
    assert MoveAllNew(g, true) == MoveAllNew(g1, true) == g1;
  }

  lemma DispatchFavoured(g: Gs, b: Tid, t: Tid)
    requires |g.rq| == 2 && g.rq[0].thread == b && g.rq[1].thread == t && g.current == None && !g.tcb(b).joinable && b != t
    requires g.nq == [] && g.wq == [] && g.sq == [] && g.dq == []
    ensures Starving(Apply(g, Dispatch), b, t)
  {
  }

  /** The running thread spawns another one and exits: the new one is favoured and `t` keeps waiting. */
  lemma StarveOnce(g: Gs, a: Tid, b: Tid, t: Tid, pol: Policy) returns (g': Gs)
    requires Starving(g, a, t) && b != t && b != a && pol.favourNew
    ensures Starves(g, SpawnAndExit(b), t, 2, pol, g') && Starving(g', b, t)
  {
    Spawn(g, a, b, t);
    var g1 := Apply(g, Adopt(b, DETACHED));
    ExitDetached(g1, a, b, t);
    var g2 := Apply(g1, AfterRun(Exited));
    FavourNew(g2, b, t);
    var g3 := Apply(g2, MoveNew(true));
    DispatchFavoured(g3, b, t);
    g' := Apply(g3, Dispatch);
    InReady(g3, t, 1);
    OneMore(g3, Dispatch, [], t, 2, pol, g');
    OneMore(g2, MoveNew(true), [Dispatch], t, 2, pol, g');
    OneMore(g1, AfterRun(Exited), [MoveNew(true), Dispatch], t, 2, pol, g');
    OneMore(g, Adopt(b, DETACHED), [AfterRun(Exited), MoveNew(true), Dispatch], t, 2, pol, g');
    assert SpawnAndExit(b) == [Adopt(b, DETACHED)] + [AfterRun(Exited), MoveNew(true), Dispatch];
  }

  lemma InReady(g: Gs, t: Tid, k: nat)
    requires k < |g.rq| && g.rq[k].thread == t
    ensures Contains(g.rq, t)
  {
  }

  lemma OneMore(g: Gs, op: Op, ops: seq<Op>, t: Tid, n: nat, pol: Policy, g': Gs)
    requires Contains(g.rq, t) && |g.rq| <= n && OpEnabled(g, op) && Allowed(g, op, pol)
    requires Starves(Apply(g, op), ops, t, n, pol, g')
    ensures Starves(g, [op] + ops, t, n, pol, g')
  {
    assert ([op] + ops)[1..] == ops;
  }

  lemma {:induction false} StarvesOn(g: Gs, first: seq<Op>, mid: Gs, second: seq<Op>, t: Tid, n: nat, pol: Policy, g': Gs)
    requires Starves(g, first, t, n, pol, mid) && Starves(mid, second, t, n, pol, g')
    ensures Starves(g, first + second, t, n, pol, g') && Dispatches(first + second) == Dispatches(first) + Dispatches(second)
    decreases |first|
  {
    if first == [] {
      assert first + second == second;
    } else {
      StarvesOn(Apply(g, first[0]), first[1..], mid, second, t, n, pol, g');
      assert first + second == [first[0]] + (first[1..] + second);
      OneMore(g, first[0], first[1..] + second, t, n, pol, g');
    }
  }

  lemma {:induction false} KeepsStarving(g: Gs, a: Tid, b: Tid, t: Tid, pol: Policy, m: nat) returns (ops: seq<Op>, g': Gs)
    requires Starving(g, a, t) && b != t && b != a && pol.favourNew
    ensures Starves(g, ops, t, 2, pol, g') && Dispatches(ops) == m
    decreases m
  {
    if m == 0 {
      InReady(g, t, 0);
      ops, g' := [], g;
    } else {
      var g1 := StarveOnce(g, a, b, t, pol);
      var rest, last := KeepsStarving(g1, b, a, t, pol, m - 1);
      StarvesOn(g, SpawnAndExit(b), g1, rest, t, 2, pol, last);
      OneDispatch(b);
      ops, g' := SpawnAndExit(b) + rest, last;
    }
  }

  lemma OneDispatch(b: Tid)
    ensures Dispatches(SpawnAndExit(b)) == 1
  {
    var ops := SpawnAndExit(b);
    assert ops[1..][1..] == ops[2..] && ops[2..][1..] == ops[3..] && ops[3..][1..] == [];
    assert Dispatches(ops[3..]) == 1 && Dispatches(ops[2..]) == 1 && Dispatches(ops[1..]) == 1;
  }

  const UNUSED: Tid -> Tcb := _ => DETACHED

  function Idle(memory: Tid -> Tcb): Gs { Gs([], [], [], [], [], None, memory, []) }

  function SpawnTwo(a: Tid, t: Tid): seq<Op> {
    [Adopt(a, DETACHED), Adopt(t, DETACHED), MoveNew(true), Dispatch]
  }

  lemma AdoptBoth(memory: Tid -> Tcb, a: Tid, t: Tid)
    requires a != t
    ensures var g1 := AdoptThread(Idle(memory), a, DETACHED); var g2 := AdoptThread(g1, t, DETACHED);
            && Held(Idle(memory), a) == 0 && Held(g1, t) == 0
            && g2.nq == [Entry(a, PRIO_STD), Entry(t, PRIO_STD)] && g2.rq == [] && g2.wq == [] && g2.sq == [] && g2.dq == []
            && g2.current == None && !g2.tcb(a).joinable
  {
    var g1 := AdoptThread(Idle(memory), a, DETACHED);
    assert g1.nq == [Entry(a, PRIO_STD)] && g1.nq[1..] == [];
    assert AdoptThread(g1, t, DETACHED).nq == [Entry(a, PRIO_STD), Entry(t, PRIO_STD)];
  }

  lemma MoveBoth(g: Gs, a: Tid, t: Tid)
    requires a != t && g.nq == [Entry(a, PRIO_STD), Entry(t, PRIO_STD)] && g.rq == [] && g.wq == [] && g.sq == [] && g.dq == []
    requires g.current == None && !g.tcb(a).joinable
    ensures var g' := MoveAllNew(g, true);
            && |g'.rq| == 2 && g'.rq[0].thread == a && g'.rq[1].thread == t && g'.current == None && !g'.tcb(a).joinable
            && g'.nq == [] && g'.wq == [] && g'.sq == [] && g'.dq == []
  {
    FavouredNewComeFirst(g);
    MoveNewKeepsRest(g, true);
    var ts := Threads(MoveAllNew(g, true).rq);
    assert ts == Threads(g.nq) + Threads(g.rq) && ts[0] == a && ts[1] == t;
  }

  lemma LeadOne(g: Gs, op: Op, ops: seq<Op>, pol: Policy, g': Gs)
    requires OpEnabled(g, op) && Allowed(g, op, pol) && Leads(Apply(g, op), ops, pol, g')
    ensures Leads(g, [op] + ops, pol, g')
  {
    assert ([op] + ops)[1..] == ops;
  }

  lemma {:induction false} MoveNewKeepsSorted(g: Gs, favour: bool)
    requires Sorted(g.rq)
    ensures Sorted(MoveAllNew(g, favour).rq)
    decreases |g.nq|
  {
    if g.nq != [] {
      var t := g.nq[|g.nq| - 1].thread;
      assert IndexOf(g.nq, t) < |g.nq|;
      var g1 := MoveOne(g, t, favour);
      assert Sorted(g1.rq) by {
        InsertIsStable(g.rq, if favour then FavoritePrio(g.rq) else PRIO_STD, t);
      }
      MoveNewKeepsSorted(g1, favour);
    }
  }

  /** Starting threads keeps the scheduler in order. */
  lemma StartKeepsOrdered(g: Gs, op: Op, pol: Policy)
    requires Ordered(g) && OpEnabled(g, op) && Allowed(g, op, pol) && (op.Adopt? || op.MoveNew? || op.Dispatch?)
    ensures Ordered(Apply(g, op))
  {
    OpConserves(g, op);
    if op.MoveNew? {
      MoveNewKeepsSorted(g, op.favour);
      MoveNewKeepsRest(g, op.favour);
      assert forall u :: Apply(g, op).PrioOf(u) == g.PrioOf(u);
    }
  }

  predicate IsStart(ops: seq<Op>) {
    forall i :: 0 <= i < |ops| ==> ops[i].Adopt? || ops[i].MoveNew? || ops[i].Dispatch?
  }

  lemma {:induction false} StartIsOrdered(g: Gs, ops: seq<Op>, pol: Policy, g': Gs)
    requires Ordered(g) && Leads(g, ops, pol, g') && IsStart(ops)
    ensures Ordered(g')
    decreases |ops|
  {
    if ops != [] {
      StartKeepsOrdered(g, ops[0], pol);
      StartIsOrdered(Apply(g, ops[0]), ops[1..], pol, g');
    }
  }

  lemma IdleIsOrdered(memory: Tid -> Tcb)
    requires PrioritiesCapped(Idle(memory))
    ensures Ordered(Idle(memory))
  {
    assert forall t :: SoundAt(Idle(memory), t);
  }

  /** A new scheduler comes to run one detached thread with another one ready. */
  lemma StartStarving(memory: Tid -> Tcb, a: Tid, t: Tid, pol: Policy) returns (g: Gs)
    requires a != t && pol.favourNew
    ensures Leads(Idle(memory), SpawnTwo(a, t), pol, g) && Starving(g, a, t)
  {
    var g1 := Apply(Idle(memory), Adopt(a, DETACHED));
    var g2 := Apply(g1, Adopt(t, DETACHED));
    AdoptBoth(memory, a, t);
    MoveBoth(g2, a, t);
    var g3 := Apply(g2, MoveNew(true));
    DispatchFavoured(g3, a, t);
    g := Apply(g3, Dispatch);
    LeadOne(g3, Dispatch, [], pol, g);
    LeadOne(g2, MoveNew(true), [Dispatch], pol, g);
    LeadOne(g1, Adopt(t, DETACHED), [MoveNew(true), Dispatch], pol, g);
    LeadOne(Idle(memory), Adopt(a, DETACHED), [Adopt(t, DETACHED), MoveNew(true), Dispatch], pol, g);
    assert SpawnTwo(a, t) == [Adopt(a, DETACHED)] + [Adopt(t, DETACHED), MoveNew(true), Dispatch];
  }

  lemma {:induction false} MoveNewKeepsRest(g: Gs, favour: bool)
    ensures var g' := MoveAllNew(g, favour);
            && g'.nq == [] && g'.wq == g.wq && g'.sq == g.sq && g'.dq == g.dq && g'.current == g.current
            && forall u :: g'.tcb(u).joinable == g.tcb(u).joinable && g'.PrioOf(u) == g.PrioOf(u)
    decreases |g.nq|
  {
    if g.nq != [] {
      var t := g.nq[|g.nq| - 1].thread;
      assert IndexOf(g.nq, t) < |g.nq|;
      MoveNewKeepsRest(MoveOne(g, t, favour), favour);
    }
  }

  /**
   With favoured new threads there is no bound: from a new scheduler a thread becomes ready and is
   passed over in any number of dispatches, the ready queue never holding more than two threads.
   */
  lemma FavouringStarves(memory: Tid -> Tcb, t: Tid, pol: Policy, m: nat) returns (start: seq<Op>, g: Gs, ops: seq<Op>, g': Gs)
    requires pol.favourNew
    ensures Leads(Idle(memory), start, pol, g) && Starves(g, ops, t, 2, pol, g') && Dispatches(ops) == m
  {
    start := SpawnTwo(t + 1, t);
    g := StartStarving(memory, t + 1, t, pol);
    ops, g' := KeepsStarving(g, t + 1, t + 2, t, pol, m);
  }

  // Two threads that yield to each other

  /** `a` runs, and `b` and `t` are ready, in either order. */
  ghost predicate Swapping(g: Gs, a: Tid, b: Tid, t: Tid) {
    && g.current == Some(a) && a != b && a != t && b != t
    && Sorted(g.rq) && |g.rq| == 2 && {g.rq[0].thread, g.rq[1].thread} == {b, t} && g.rq[1].prio >= PRIO_STD
    && g.PrioOf(a) == g.PrioOf(b) == PRIO_STD && g.StateOf(a) == g.StateOf(b) == READY
  }

  function YieldTo(b: Tid): seq<Op> { [Favor(b), AfterRun(Yielded), Dispatch] }

  lemma FavorOther(g: Gs, a: Tid, b: Tid, t: Tid)
    requires Swapping(g, a, b, t)
    ensures var g' := Apply(g, Favor(b));
            Swapping(g', a, b, t) && g'.rq[0].thread == b && g'.rq[1].thread == t
  {
    var k := if g.rq[0].thread == b then 0 else 1;
    assert g.rq[k].thread == b && g.rq[1 - k].thread == t;
    InReady(g, b, k);
    WithoutAt(g.rq, b, k);
    var rest := Without(g.rq, b);
    assert rest == [g.rq[1 - k]];
    InsertFavorite(rest, b);
  }

  lemma YieldBehind(g: Gs, a: Tid, b: Tid, t: Tid)
    requires Swapping(g, a, b, t) && g.rq[0].thread == b && g.rq[1].thread == t
    ensures var g' := Apply(g, AfterRun(Yielded));
            && g'.current == None && g'.tcb == g.tcb && |g'.rq| == 3 && Sorted(g'.rq)
            && g'.rq[0].thread == b && g'.rq[1].thread == t && g'.rq[2] == Entry(a, PRIO_STD)
  {
    RaiseKeepsOrder(g.rq);
    InsertAt(Raise(g.rq), PRIO_STD, a, 2);
    InsertIsStable(Raise(g.rq), PRIO_STD, a);
  }

  lemma DispatchOther(g: Gs, a: Tid, b: Tid, t: Tid, pol: Policy) returns (g': Gs)
    requires Swapping(g, a, b, t) && g.rq[0].thread == b && g.rq[1].thread == t
    ensures Starves(g, [AfterRun(Yielded), Dispatch], t, 3, pol, g') && Swapping(g', b, a, t)
  {
    YieldBehind(g, a, b, t);
    var g1 := Apply(g, AfterRun(Yielded));
    g' := Apply(g1, Dispatch);
    assert g'.rq[0].thread == t;
    InReady(g', t, 0);
    InReady(g1, t, 1);
    InReady(g, t, 1);
    OneMore(g1, Dispatch, [], t, 3, pol, g');
    OneMore(g, AfterRun(Yielded), [Dispatch], t, 3, pol, g');
  }

  lemma SwapOnce(g: Gs, a: Tid, b: Tid, t: Tid, pol: Policy) returns (g': Gs)
    requires Swapping(g, a, b, t) && pol.yieldTo
    ensures Starves(g, YieldTo(b), t, 3, pol, g') && Swapping(g', b, a, t)
  {
    FavorOther(g, a, b, t);
    g' := DispatchOther(Apply(g, Favor(b)), a, b, t, pol);
    InReady(g, t, if g.rq[0].thread == t then 0 else 1);
    OneMore(g, Favor(b), [AfterRun(Yielded), Dispatch], t, 3, pol, g');
    assert YieldTo(b) == [Favor(b)] + [AfterRun(Yielded), Dispatch];
  }

  lemma OneDispatchEach(b: Tid)
    ensures Dispatches(YieldTo(b)) == 1
  {
    var ops := YieldTo(b);
    assert ops[1..][1..] == ops[2..] && ops[2..][1..] == [];
    assert Dispatches(ops[2..]) == 1 && Dispatches(ops[1..]) == 1;
  }

  lemma {:induction false} KeepsSwapping(g: Gs, a: Tid, b: Tid, t: Tid, pol: Policy, m: nat) returns (ops: seq<Op>, g': Gs)
    requires Swapping(g, a, b, t) && pol.yieldTo
    ensures Starves(g, ops, t, 3, pol, g') && Dispatches(ops) == m
    decreases m
  {
    if m == 0 {
      InReady(g, t, if g.rq[0].thread == t then 0 else 1);
      ops, g' := [], g;
    } else {
      var g1 := SwapOnce(g, a, b, t, pol);
      var rest, last := KeepsSwapping(g1, b, a, t, pol, m - 1);
      StarvesOn(g, YieldTo(b), g1, rest, t, 3, pol, last);
      OneDispatchEach(b);
      ops, g' := YieldTo(b) + rest, last;
    }
  }

  function SpawnThree(a: Tid, b: Tid, t: Tid): seq<Op> {
    [Adopt(t, DETACHED), Adopt(b, DETACHED), Adopt(a, DETACHED), MoveNew(false), Dispatch]
  }

  lemma AdoptThree(memory: Tid -> Tcb, a: Tid, b: Tid, t: Tid)
    requires a != b && a != t && b != t
    ensures var g1 := AdoptThread(Idle(memory), t, DETACHED);
            var g2 := AdoptThread(g1, b, DETACHED);
            var g3 := AdoptThread(g2, a, DETACHED);
            && Held(Idle(memory), t) == 0 && Held(g1, b) == 0 && Held(g2, a) == 0
            && g3.nq == [Entry(t, PRIO_STD), Entry(b, PRIO_STD), Entry(a, PRIO_STD)] && g3.rq == [] && g3.current == None
            && g3.PrioOf(a) == g3.PrioOf(b) == PRIO_STD
  {
    var g1 := AdoptThread(Idle(memory), t, DETACHED);
    assert g1.nq == [Entry(t, PRIO_STD)] && g1.nq[1..] == [];
    var g2 := AdoptThread(g1, b, DETACHED);
    assert g2.nq == [Entry(t, PRIO_STD), Entry(b, PRIO_STD)] && g2.nq[1..] == [Entry(b, PRIO_STD)] && g2.nq[1..][1..] == [];
    assert Count(g2.nq[1..], a) == 0;
    assert AdoptThread(g2, a, DETACHED).nq == [Entry(t, PRIO_STD), Entry(b, PRIO_STD), Entry(a, PRIO_STD)];
  }

  lemma MoveThree(g: Gs, a: Tid, b: Tid, t: Tid)
    requires g.nq == [Entry(t, PRIO_STD), Entry(b, PRIO_STD), Entry(a, PRIO_STD)] && g.rq == []
    requires a != b && a != t && b != t
    ensures MoveAllNew(g, false).rq == [Entry(a, PRIO_STD), Entry(b, PRIO_STD), Entry(t, PRIO_STD)]
  {
    PlainNewComeReversed(g);
    assert g.nq[..2] == [Entry(t, PRIO_STD), Entry(b, PRIO_STD)] && g.nq[..2][..1] == [Entry(t, PRIO_STD)];
    assert g.nq[..2][..1][..0] == [];
    assert ReversedAtStd(g.nq[..2][..1]) == [Entry(t, PRIO_STD)];
    assert ReversedAtStd(g.nq[..2]) == [Entry(b, PRIO_STD), Entry(t, PRIO_STD)];
  }

  predicate ReadySoon(g: Gs, u: Tid) { Contains(g.nq, u) || g.StateOf(u) == READY }

  lemma MoveOneReady(g: Gs, t: Tid, favour: bool, u: Tid)
    requires ReadySoon(g, u)
    ensures ReadySoon(MoveOne(g, t, favour), u)
  {
    if u != t && Contains(g.nq, u) {
      WithoutMoves(g.nq, t, u);
    }
  }

  lemma {:induction false} MoveNewIsReady(g: Gs, favour: bool, u: Tid)
    requires ReadySoon(g, u)
    ensures ReadySoon(MoveAllNew(g, favour), u)
    decreases |g.nq|
  {
    if g.nq != [] {
      var t := g.nq[|g.nq| - 1].thread;
      assert IndexOf(g.nq, t) < |g.nq|;
      MoveOneReady(g, t, favour, u);
      MoveNewIsReady(MoveOne(g, t, favour), favour, u);
    }
  }

  lemma RunThree(g: Gs, a: Tid, b: Tid, t: Tid)
    requires g.nq == [Entry(t, PRIO_STD), Entry(b, PRIO_STD), Entry(a, PRIO_STD)] && g.rq == [] && g.current == None
    requires a != b && a != t && b != t && g.PrioOf(a) == g.PrioOf(b) == PRIO_STD
    ensures var g' := Apply(g, MoveNew(false));
            OpEnabled(g', Dispatch) && Swapping(Apply(g', Dispatch), a, b, t)
  {
    MoveThree(g, a, b, t);
    MoveNewKeepsRest(g, false);
    assert g.nq[1].thread == b && g.nq[2].thread == a;
    MoveNewIsReady(g, false, a);
    MoveNewIsReady(g, false, b);
  }

  /** A new scheduler comes to run one of three threads. */
  lemma StartSwapping(memory: Tid -> Tcb, a: Tid, b: Tid, t: Tid, pol: Policy) returns (g: Gs)
    requires a != b && a != t && b != t
    ensures Leads(Idle(memory), SpawnThree(a, b, t), pol, g) && Swapping(g, a, b, t)
  {
    var g1 := Apply(Idle(memory), Adopt(t, DETACHED));
    var g2 := Apply(g1, Adopt(b, DETACHED));
    var g3 := Apply(g2, Adopt(a, DETACHED));
    AdoptThree(memory, a, b, t);
    RunThree(g3, a, b, t);
    g := Apply(Apply(g3, MoveNew(false)), Dispatch);
    RunLeads(g3, pol);
    LeadOne(g2, Adopt(a, DETACHED), [MoveNew(false), Dispatch], pol, g);
    LeadOne(g1, Adopt(b, DETACHED), [Adopt(a, DETACHED), MoveNew(false), Dispatch], pol, g);
    LeadOne(Idle(memory), Adopt(t, DETACHED), SpawnThree(a, b, t)[1..], pol, g);
    assert SpawnThree(a, b, t) == [Adopt(t, DETACHED)] + SpawnThree(a, b, t)[1..];
  }

  lemma RunLeads(g: Gs, pol: Policy)
    requires OpEnabled(g, MoveNew(false)) && OpEnabled(Apply(g, MoveNew(false)), Dispatch)
    ensures Leads(g, [MoveNew(false), Dispatch], pol, Apply(Apply(g, MoveNew(false)), Dispatch))
  {
    var g1 := Apply(g, MoveNew(false));
    LeadOne(g1, Dispatch, [], pol, Apply(g1, Dispatch));
    LeadOne(g, MoveNew(false), [Dispatch], pol, Apply(g1, Dispatch));
  }

  /**
   With yield-to there is no bound either: from a new scheduler a thread becomes ready, and two
   others that yield to each other pass it over in any number of dispatches, the ready queue never
   holding more than three threads.
   */
  lemma YieldingStarves(memory: Tid -> Tcb, t: Tid, pol: Policy, m: nat) returns (start: seq<Op>, g: Gs, ops: seq<Op>, g': Gs)
    requires pol.yieldTo
    ensures Leads(Idle(memory), start, pol, g) && Starves(g, ops, t, 3, pol, g') && Dispatches(ops) == m
  {
    start := SpawnThree(t + 1, t + 2, t);
    g := StartSwapping(memory, t + 1, t + 2, t, pol);
    ops, g' := KeepsSwapping(g, t + 1, t + 2, t, pol, m);
  }

  // The exact condition

  /** No run leaves a thread of effective priority `e` waiting for `b` dispatches among at most `n` ready ones. */
  ghost predicate BoundedBy(pol: Policy, e: int, n: nat, b: int) {
    forall g, ops, t :: Ordered(g) && KeepsWaiting(g, ops, t, n, pol) && PrioAt(g.rq, t) == e ==> Dispatches(ops) < b
  }

  ghost predicate HasBound(pol: Policy, e: int, n: nat) { exists b :: BoundedBy(pol, e, n, b) }

  ghost predicate Bounded(pol: Policy) { forall e: int, n: nat :: HasBound(pol, e, n) }

  lemma PlainIsBounded(e: int, n: nat)
    ensures BoundedBy(PLAIN, e, n, (if e < CEILING then CEILING - e else 0) + n)
  {
    forall g, ops, t | Ordered(g) && KeepsWaiting(g, ops, t, n, PLAIN) && PrioAt(g.rq, t) == e
      ensures Dispatches(ops) < (if e < CEILING then CEILING - e else 0) + n
    {
      WaitingIsBounded(g, ops, t, n);
    }
  }

  lemma Refutes(g: Gs, ops: seq<Op>, t: Tid, n: nat, pol: Policy, g': Gs, b: int)
    requires Ordered(g) && Starves(g, ops, t, n, pol, g') && Dispatches(ops) >= b
    ensures !BoundedBy(pol, PrioAt(g.rq, t), n, b)
  {
  }

  lemma StarvingIsUnbounded(g: Gs, pol: Policy)
    requires Ordered(g) && Starving(g, 1, 0) && pol.favourNew
    ensures Contains(g.rq, 0) && !HasBound(pol, PrioAt(g.rq, 0), 2)
  {
    InReady(g, 0, 0);
    forall b: int ensures !BoundedBy(pol, PrioAt(g.rq, 0), 2, b) {
      var ops, g' := KeepsStarving(g, 1, 2, 0, pol, if b < 0 then 0 else b);
      Refutes(g, ops, 0, 2, pol, g', b);
    }
  }

  lemma SwappingIsUnbounded(g: Gs, pol: Policy)
    requires Ordered(g) && Swapping(g, 1, 2, 0) && pol.yieldTo
    ensures Contains(g.rq, 0) && !HasBound(pol, PrioAt(g.rq, 0), 3)
  {
    InReady(g, 0, if g.rq[0].thread == 0 then 0 else 1);
    forall b: int ensures !BoundedBy(pol, PrioAt(g.rq, 0), 3, b) {
      var ops, g' := KeepsSwapping(g, 1, 2, 0, pol, if b < 0 then 0 else b);
      Refutes(g, ops, 0, 3, pol, g', b);
    }
  }

  lemma BothAreStarts()
    ensures IsStart(SpawnTwo(1, 0)) && IsStart(SpawnThree(1, 2, 0))
  {
  }

  /** A new scheduler gets there. */
  lemma Started(ops: seq<Op>, pol: Policy, g: Gs)
    requires IsStart(ops) && Leads(Idle(UNUSED), ops, pol, g)
    ensures Ordered(g)
  {
    IdleIsOrdered(UNUSED);
    StartIsOrdered(Idle(UNUSED), ops, pol, g);
  }

  lemma SomeoneStarves(pol: Policy) returns (e: int, n: nat)
    requires pol.favourNew || pol.yieldTo
    ensures !HasBound(pol, e, n)
  {
    BothAreStarts();
    var g: Gs;
    if pol.favourNew {
      g := StartStarving(UNUSED, 1, 0, pol);
      Started(SpawnTwo(1, 0), pol, g);
      StarvingIsUnbounded(g, pol);
    } else {
      g := StartSwapping(UNUSED, 1, 2, 0, pol);
      Started(SpawnThree(1, 2, 0), pol, g);
      SwappingIsUnbounded(g, pol);
    }
    e, n := PrioAt(g.rq, 0), if pol.favourNew then 2 else 3;
  }

  /** Waiting is bounded exactly if new threads are not favoured and nobody yields to another thread. */
  lemma BoundedExactlyWhen(pol: Policy)
    ensures Bounded(pol) <==> !pol.favourNew && !pol.yieldTo
  {
    if pol == PLAIN {
      forall e: int, n: nat ensures HasBound(pol, e, n) {
        PlainIsBounded(e, n);
      }
    } else {
      var e, n := SomeoneStarves(pol);
      assert !HasBound(pol, e, n);
    }
  }
}
