/** The condition variable of pth_sync.c: a FIFO of waiters and a counter that must match it. */
module Condition {
  import opened Basics

  class Cond {
    var initialized: bool
    var waiters: int
    var waitq: seq<Tid>

    ghost predicate Valid()
      reads this
    {
      initialized && waiters == |waitq| && NoDup(waitq)
    }

    constructor ()
      ensures Valid() && waitq == []
    {
      initialized, waiters, waitq := true, 0, [];
    }

    /** pth_cond_await: park before the mutex is released */
    method Park(me: Tid)
      requires Valid() && me !in waitq
      modifies this
      ensures Valid() && waitq == old(waitq) + [me]
    {
      waitq := waitq + [me];
      waiters := waiters + 1;
    }

    /** pth_cond_await, after pth_wait: no effect if a notifier already dequeued us */
    method Unpark(me: Tid)
      requires Valid()
      modifies this
      ensures Valid() && waitq == Remove(old(waitq), me)
    {
      RemoveKeepsNoDup(waitq, me);
      if me in waitq {
        waiters := waiters - 1;
      }
      waitq := Remove(waitq, me);
    }

    /** pth_cond_notify, run without interference: one waiter, or everyone, in order of arrival */
    method Notify(broadcast: bool) returns (woken: seq<Tid>)
      requires Valid()
      modifies this
      ensures Valid()
      ensures old(waitq) == woken + waitq
      ensures |woken| == if broadcast then |old(waitq)| else if old(waitq) == [] then 0 else 1
    {
      woken := [];
      while true
        invariant Valid() && old(waitq) == woken + waitq
        invariant !broadcast ==> woken == []
        decreases |waitq|
      {
        if waitq == [] {
          break;
        }
        woken := woken + [waitq[0]];
        waiters := waiters - 1;
        waitq := waitq[1..];
        if !broadcast {
          break;
        }
      }
    }
  }
}

/** The barrier of pth_sync.c: the section that counts an arrival while the mutex is held. */
module BarrierSections {
  class Barrier {
    const threshold: int
    var count: int
    var cycle: bool

    constructor (threshold: int)
      requires threshold > 0
      ensures this.threshold == threshold && count == threshold && !cycle
    {
      this.threshold := threshold;
      count, cycle := threshold, false;
    }

    /** Count one arrival; the last one starts the next cycle. `mine` is the cycle arrived in. */
    method Arrive() returns (mine: bool, last: bool)
      modifies this`count, this`cycle
      ensures mine == old(cycle) && last == (old(count) - 1 == 0)
      ensures (count, cycle) == Counted(threshold, old(count), old(cycle))
    {
      mine := cycle;
      count := count - 1;
      last := count == 0;
      if last {
        cycle := !cycle;
        count := threshold;
      }
    }
  }

  function Counted(threshold: int, count: int, cycle: bool): (int, bool) {
    if count - 1 == 0 then (threshold, !cycle) else (count - 1, cycle)
  }
}

/**
 A barrier used by exactly `threshold` threads, any number of times. The mutex is represented by its
 holder; the condition variable by its queue. Sleepers may be resumed at any time for any reason.
 */
module BarrierProtocol {
  import opened Basics
  import opened BarrierSections

  datatype Result = Passed | TailLight

  datatype Pc =
    | Outside
    | Notifying               // last to arrive, broadcasting, holds the mutex
    | Looping(cycle: bool)    // about to compare cycles, holds the mutex
    | Parked(cycle: bool)     // on the condition's queue, still holds the mutex
    | Asleep(cycle: bool)     // mutex released, in pth_wait
    | Returning(cycle: bool)  // off the queue, wants the mutex back
    | Leaving(result: Result) // done, holds the mutex

  /**
   The last four fields record history: how many rounds are complete, how often each member has
   arrived, who arrived last in each round, and what each member was told on each return.
   */
  datatype State = State(
    members: set<Tid>, holder: Option<Tid>, count: int, cycle: bool, condq: seq<Tid>, pc: Tid -> Pc,
    round: nat, arrived: Tid -> int, tails: seq<Tid>, results: Tid -> seq<Result>)
  {
    function Left(t: Tid): nat { |results(t)| }
  }

  datatype Step =
    | Arrive(t: Tid) | NotifyOne(t: Tid) | Test(t: Tid) | Release(t: Tid)
    | Resume(t: Tid) | Reacquire(t: Tid) | Return(t: Tid)

  predicate Enabled(s: State, step: Step) {
    && step.t in s.members
    && match step
       case Arrive(t) => s.pc(t).Outside? && s.holder == None
       case NotifyOne(t) => s.pc(t).Notifying?
       case Test(t) => s.pc(t).Looping?
       case Release(t) => s.pc(t).Parked?
       case Resume(t) => s.pc(t).Asleep?
       case Reacquire(t) => s.pc(t).Returning? && s.holder == None
       case Return(t) => s.pc(t).Leaving?
  }

  function Apply(s: State, step: Step): State
    requires Enabled(s, step)
  {
    match step
    case Arrive(t) =>
      var (count, cycle) := Counted(|s.members|, s.count, s.cycle);
      var s1 := s.(holder := Some(t), count := count, cycle := cycle, arrived := Set(s.arrived, t, s.arrived(t) + 1));
      if s.count - 1 == 0 then
        s1.(pc := Set(s.pc, t, Notifying), round := s.round + 1, tails := s.tails + [t])
      else s1.(pc := Set(s.pc, t, Looping(s.cycle)))
    case NotifyOne(t) =>
      if s.condq != [] then s.(condq := s.condq[1..]) else s.(pc := Set(s.pc, t, Leaving(TailLight)))
    case Test(t) =>
      if s.pc(t).cycle == s.cycle then s.(condq := s.condq + [t], pc := Set(s.pc, t, Parked(s.pc(t).cycle)))
      else s.(pc := Set(s.pc, t, Leaving(Passed)))
    case Release(t) =>
      s.(holder := None, pc := Set(s.pc, t, Asleep(s.pc(t).cycle)))
    case Resume(t) =>
      s.(condq := Remove(s.condq, t), pc := Set(s.pc, t, Returning(s.pc(t).cycle)))
    case Reacquire(t) =>
      s.(holder := Some(t), pc := Set(s.pc, t, Looping(s.pc(t).cycle)))
    case Return(t) =>
      s.(holder := None, pc := Set(s.pc, t, Outside), results := Set(s.results, t, s.results(t) + [s.pc(t).result]))
  }

  ghost predicate Init(s: State) {
    && |s.members| > 0 && s.count == |s.members| && !s.cycle && s.holder == None && s.condq == []
    && (forall t :: s.pc(t) == Outside && s.arrived(t) == 0 && s.results(t) == [])
    && s.round == 0 && s.tails == []
  }

  predicate Odd(k: int) { k % 2 == 1 }

  predicate HoldsMutex(pc: Pc) { pc.Notifying? || pc.Looping? || pc.Parked? || pc.Leaving? }

  predicate InLoop(pc: Pc) { pc.Looping? || pc.Parked? || pc.Asleep? || pc.Returning? }

  ghost function ArrivedNow(s: State): set<Tid> {
    set t | t in s.members && s.arrived(t) == s.round + 1
  }

  ghost predicate MutexHeld(s: State) {
    && (s.holder.Some? ==> s.holder.value in s.members)
    && (forall t :: t in s.members ==> (s.holder == Some(t) <==> HoldsMutex(s.pc(t))))
  }

  /** The members not yet counted are exactly the ones still missing from this round. */
  ghost predicate Counts(s: State) {
    1 <= s.count && s.count + |ArrivedNow(s)| == |s.members|
  }

  /** The one-bit cycle tells a finished round from the running one, for every member inside. */
  ghost predicate Phase(s: State, t: Tid) {
    && s.round <= s.arrived(t) <= s.round + 1
    && s.Left(t) <= s.round
    && s.arrived(t) == (if s.pc(t).Outside? then s.Left(t) else s.Left(t) + 1)
    && (InLoop(s.pc(t)) ==> s.pc(t).cycle == Odd(s.Left(t)))
    && (s.pc(t).Notifying? || s.pc(t).Leaving? ==> s.arrived(t) == s.round)
    && (s.pc(t).Parked? ==> s.arrived(t) == s.round + 1)
  }

  ghost predicate Phases(s: State) {
    s.cycle == Odd(s.round) && forall t :: t in s.members ==> Phase(s, t)
  }

  ghost predicate QueueHoldsSleepers(s: State) {
    && NoDup(s.condq)
    && (forall t :: t in s.condq ==> t in s.members && (s.pc(t).Parked? || s.pc(t).Asleep?))
  }

  /** Only members of the running round are left on the queue, unless the broadcast is under way. */
  ghost predicate QueueIsCurrent(s: State) {
    && (forall t :: t in s.condq ==>
          s.arrived(t) == s.round + 1 || (s.holder.Some? && s.pc(s.holder.value).Notifying?))
    && (forall t :: t in s.members && s.pc(t) == Leaving(TailLight) ==> s.condq == [])
  }

  /** What a member was told, and is about to be told, agrees with who was last. */
  ghost predicate Told(s: State, t: Tid) {
    && (forall r :: 0 <= r < s.Left(t) && r < |s.tails| ==> (s.results(t)[r] == TailLight <==> s.tails[r] == t))
    && (s.Left(t) < |s.tails| && !s.pc(t).Outside? ==>
          (s.tails[s.Left(t)] == t <==> s.pc(t).Notifying? || s.pc(t) == Leaving(TailLight)))
  }

  ghost predicate Tails(s: State) {
    && |s.tails| == s.round
    && (forall r :: 0 <= r < s.round ==> s.tails[r] in s.members)
    && (forall t :: t in s.members ==> Told(s, t))
  }

  ghost predicate Inv(s: State) {
    MutexHeld(s) && Counts(s) && Phases(s) && QueueHoldsSleepers(s) && QueueIsCurrent(s) && Tails(s)
  }

  lemma SameSizeSubset<T>(a: set<T>, b: set<T>)
    requires a <= b && |a| == |b|
    ensures a == b
  {
    assert |b - a| == |b| - |a|;
  }

  /** The arrival that brings the count to zero is the last: everyone has arrived in this round. */
  lemma LastArrival(s: State, t: Tid)
    requires Counts(s) && Phases(s) && Enabled(s, Arrive(t)) && s.count == 1
    ensures forall u :: u in s.members && u != t ==> s.arrived(u) == s.round + 1
  {
    assert Phase(s, t) && t !in ArrivedNow(s);
    SameSizeSubset(ArrivedNow(s) + {t}, s.members);
    forall u | u in s.members && u != t ensures s.arrived(u) == s.round + 1 {
      assert u in ArrivedNow(s) + {t};
    }
  }

  lemma ArriveKeepsCounts(s: State, t: Tid)
    requires Counts(s) && Phases(s) && Enabled(s, Arrive(t))
    ensures Counts(Apply(s, Arrive(t)))
  {
    var s' := Apply(s, Arrive(t));
    assert Phase(s, t) && t !in ArrivedNow(s);
    if s.count == 1 {
      LastArrival(s, t);
      forall u ensures u !in ArrivedNow(s') {
        assert u in s.members && u != t ==> s.arrived(u) == s.round + 1;
      }
      assert ArrivedNow(s') == {};
    } else {
      assert ArrivedNow(s') == ArrivedNow(s) + {t};
    }
  }

  lemma StepKeepsCounts(s: State, step: Step)
    requires Counts(s) && Phases(s) && Enabled(s, step)
    ensures Counts(Apply(s, step))
  {
    if step.Arrive? {
      ArriveKeepsCounts(s, step.t);
    } else {
      assert ArrivedNow(Apply(s, step)) == ArrivedNow(s);
    }
  }

  lemma StepKeepsMutex(s: State, step: Step)
    requires MutexHeld(s) && Enabled(s, step)
    ensures MutexHeld(Apply(s, step))
  {
  }

  lemma StepKeepsPhases(s: State, step: Step)
    requires MutexHeld(s) && Counts(s) && Phases(s) && Enabled(s, step)
    ensures Phases(Apply(s, step))
  {
    var s' := Apply(s, step);
    if step.Arrive? && s.count == 1 {
      LastArrival(s, step.t);
    }
    forall t | t in s.members ensures Phase(s', t) {
      assert Phase(s, t) && Phase(s, step.t);
    }
  }

  lemma StepKeepsSleepers(s: State, step: Step)
    requires QueueHoldsSleepers(s) && Enabled(s, step)
    ensures QueueHoldsSleepers(Apply(s, step))
  {
    match step
    case Resume(t) => RemoveKeepsNoDup(s.condq, t);
    case NotifyOne(t) => assert forall u :: u in Apply(s, step).condq ==> u in s.condq;
    case _ =>
  }

  lemma StepKeepsQueue(s: State, step: Step)
    requires MutexHeld(s) && Phases(s) && QueueHoldsSleepers(s) && QueueIsCurrent(s) && Enabled(s, step)
    ensures QueueIsCurrent(Apply(s, step))
  {
    assert Phase(s, step.t);
    if step.NotifyOne? {
      assert forall u :: u in Apply(s, step).condq ==> u in s.condq;
    }
  }

  /** A step of another member does not change what `t` is told; a last arrival finds `t` inside this round. */
  lemma OthersKeepTold(s: State, step: Step, t: Tid)
    requires |s.tails| == s.round && Phase(s, t) && Told(s, t) && Enabled(s, step) && step.t != t
    ensures Told(Apply(s, step), t)
  {
    var s' := Apply(s, step);
    assert s'.pc(t) == s.pc(t) && s'.results(t) == s.results(t);
    assert s'.tails == s.tails || s'.tails == s.tails + [step.t];
  }

  lemma OwnStepKeepsTold(s: State, step: Step)
    requires |s.tails| == s.round && Phase(s, step.t) && s.cycle == Odd(s.round) && Told(s, step.t) && Enabled(s, step)
    ensures Told(Apply(s, step), step.t)
  {
    var t, s' := step.t, Apply(s, step);
    if step.Return? {
      assert s'.results(t) == s.results(t) + [s.pc(t).result] && s'.tails == s.tails;
    } else {
      assert s'.results(t) == s.results(t);
      assert s'.tails == s.tails || (step.Arrive? && s'.tails == s.tails + [t]);
    }
  }

  lemma StepKeepsTold(s: State, step: Step, t: Tid)
    requires Phases(s) && Tails(s) && Enabled(s, step) && t in s.members
    ensures Told(Apply(s, step), t)
  {
    assert Told(s, t) && Phase(s, t);
    if step.t != t {
      OthersKeepTold(s, step, t);
    } else {
      OwnStepKeepsTold(s, step);
    }
  }

  lemma StepKeepsTails(s: State, step: Step)
    requires Phases(s) && Tails(s) && Enabled(s, step)
    ensures Tails(Apply(s, step))
  {
    forall t | t in s.members ensures Told(Apply(s, step), t) {
      StepKeepsTold(s, step, t);
    }
  }

  lemma StepKeepsInv(s: State, step: Step)
    requires Inv(s) && Enabled(s, step)
    ensures Inv(Apply(s, step))
  {
    StepKeepsMutex(s, step);
    StepKeepsCounts(s, step);
    StepKeepsPhases(s, step);
    StepKeepsSleepers(s, step);
    StepKeepsQueue(s, step);
    StepKeepsTails(s, step);
  }

  ghost predicate Next(s: State, s': State) {
    exists step :: Enabled(s, step) && s' == Apply(s, step)
  }

  ghost predicate IsRun(run: seq<State>) {
    run != [] && Init(run[0]) && forall i :: 0 <= i < |run| - 1 ==> Next(run[i], run[i + 1])
  }

  lemma InitIsGood(s: State)
    requires Init(s)
    ensures Inv(s)
  {
    forall t ensures t !in ArrivedNow(s) {
      assert s.arrived(t) == 0;
    }
    assert ArrivedNow(s) == {};
    assert forall t :: t in s.members ==> Phase(s, t) && Told(s, t);
  }

  lemma {:induction false} RunsKeepInv(run: seq<State>, i: nat)
    requires IsRun(run) && i < |run|
    ensures Inv(run[i])
  {
    if i == 0 {
      InitIsGood(run[0]);
    } else {
      RunsKeepInv(run, i - 1);
      assert Next(run[i - 1], run[i]);
      var step :| Enabled(run[i - 1], step) && run[i] == Apply(run[i - 1], step);
      StepKeepsInv(run[i - 1], step);
    }
  }

  // What the runs guarantee

  /** Nobody leaves round `r` before every member has arrived in round `r`. */
  lemma NobodyLeavesEarly(run: seq<State>, i: nat, t: Tid, u: Tid, r: nat)
    requires IsRun(run) && i < |run|
    requires t in run[i].members && u in run[i].members
    requires r < run[i].Left(t)
    ensures run[i].arrived(u) > r
  {
    RunsKeepInv(run, i);
    assert Phase(run[i], t) && Phase(run[i], u);
  }

  /** Two members are never more than one round apart. */
  lemma WithinOneRound(run: seq<State>, i: nat, t: Tid, u: Tid)
    requires IsRun(run) && i < |run|
    requires t in run[i].members && u in run[i].members
    ensures -1 <= run[i].arrived(t) - run[i].arrived(u) <= 1
  {
    RunsKeepInv(run, i);
    assert Phase(run[i], t) && Phase(run[i], u);
  }

  lemma ParityTellsNeighbours(a: int, b: int)
    requires a <= b <= a + 1
    ensures Odd(a) != Odd(b) <==> a < b
  {
  }

  lemma PhaseBit(s: State, t: Tid)
    requires Phases(s) && t in s.members && InLoop(s.pc(t))
    ensures s.pc(t).cycle != s.cycle <==> s.Left(t) < s.round
  {
    assert Phase(s, t);
    ParityTellsNeighbours(s.Left(t), s.round);
  }

  /** A member inside the wait loop leaves it exactly when its own round is complete. */
  lemma CycleBitIsThePhase(run: seq<State>, i: nat, t: Tid)
    requires IsRun(run) && i < |run| && t in run[i].members && InLoop(run[i].pc(t))
    ensures run[i].pc(t).cycle != run[i].cycle <==> run[i].Left(t) < run[i].round
  {
    RunsKeepInv(run, i);
    PhaseBit(run[i], t);
  }

  /**
   When the last arrival has finished its broadcast it still holds the mutex and the condition's
   queue is empty; whenever no broadcast is under way, everyone queued belongs to the running round.
   */
  lemma BroadcastEmptiesTheQueue(run: seq<State>, i: nat, t: Tid)
    requires IsRun(run) && i < |run| && t in run[i].members
    ensures run[i].pc(t) == Leaving(TailLight) ==> run[i].condq == [] && run[i].holder == Some(t)
    ensures t in run[i].condq && (forall u :: u in run[i].members ==> !run[i].pc(u).Notifying?) ==>
              run[i].Left(t) == run[i].round
  {
    RunsKeepInv(run, i);
    var s := run[i];
    assert Phase(s, t);
    if t in s.condq && forall u :: u in s.members ==> !s.pc(u).Notifying? {
      assert s.holder.Some? ==> !s.pc(s.holder.value).Notifying?;
      assert s.arrived(t) == s.round + 1 && !s.pc(t).Outside?;
    }
  }

  ghost predicate WasTail(s: State, t: Tid, r: nat) {
    t in s.members && r < s.Left(t) && s.results(t)[r] == TailLight
  }

  /** In a round that everyone has left, exactly one caller was told it is the tail light. */
  lemma ExactlyOneTailLight(run: seq<State>, i: nat, r: nat)
    requires IsRun(run) && i < |run|
    requires forall t :: t in run[i].members ==> r < run[i].Left(t)
    ensures exists t :: WasTail(run[i], t, r)
    ensures forall t, u :: WasTail(run[i], t, r) && WasTail(run[i], u, r) ==> t == u
  {
    RunsKeepInv(run, i);
    var s := run[i];
    MembersStay(run, i);
    var m := Someone(s.members);
    assert Phase(s, m);
    assert forall t :: t in s.members ==> Told(s, t);
    assert WasTail(s, s.tails[r], r);
  }

  lemma {:induction false} MembersStay(run: seq<State>, i: nat)
    requires IsRun(run) && i < |run|
    ensures run[i].members == run[0].members && run[i].members != {}
  {
    if i > 0 {
      MembersStay(run, i - 1);
      assert Next(run[i - 1], run[i]);
    }
  }
}
