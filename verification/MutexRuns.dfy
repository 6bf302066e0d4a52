/**
 What the runs of a mutex do not guarantee, and exactly when they do: that an open mutex with a queue
 has a waiter coming, and that a fair mutex is handed over in the order of arrival.
 */
module MutexStranding {
  import opened Basics
  import opened MutexSections
  import opened MutexProtocol
  import Wakeup
  import DW = DirectedWakeup

  /** A run during which the policy stays the same */
  ghost predicate PolicyRun(run: seq<State>, interrupts: bool, fair: bool) {
    IsRun(run, interrupts) && forall i :: 0 <= i < |run| ==> run[i].mx.fair == fair
  }

  /**
   `directed`: every wait, for this mutex or for anything else, is ended by its wakeup.
   `idle`: fair mode is switched on only while nobody waits.
   */
  ghost predicate Permitted(s: State, step: Step, directed: bool, idle: bool) {
    && (directed && step.Other? ==> DW.DirectedStep(step.ws))
    && (idle && step.SetFair? && step.on ==> forall u :: !s.w.WaitsOn(u, MX))
  }

  ghost predicate OrderNext(s: State, s': State, interrupts: bool, directed: bool, idle: bool) {
    && s.mx.waitq == s.w.queue(MX)
    && exists step :: Enabled(s, step, interrupts) && Permitted(s, step, directed, idle) && s' == Apply(s, step, interrupts)
  }

  ghost predicate OrderRun(run: seq<State>, interrupts: bool, directed: bool, idle: bool) {
    && run != [] && Init(run[0]) && DW.Start(run[0].w)
    && forall i :: 0 <= i < |run| - 1 ==> OrderNext(run[i], run[i + 1], interrupts, directed, idle)
  }

  lemma Restricts(run: seq<State>, interrupts: bool, directed: bool, idle: bool)
    requires OrderRun(run, interrupts, directed, idle)
    ensures IsRun(run, interrupts) && OrderRun(run, interrupts, directed, false) && OrderRun(run, interrupts, false, idle)
  {
    forall i | 0 <= i < |run| - 1
      ensures Next(run[i], run[i + 1], interrupts)
      ensures OrderNext(run[i], run[i + 1], interrupts, directed, false)
      ensures OrderNext(run[i], run[i + 1], interrupts, false, idle)
    {
      assert OrderNext(run[i], run[i + 1], interrupts, directed, idle);
      var step :| Enabled(run[i], step, interrupts) && Permitted(run[i], step, directed, idle) && run[i + 1] == Apply(run[i], step, interrupts);
      assert Permitted(run[i], step, directed, false) && Permitted(run[i], step, false, idle);
    }
  }

  // Building runs

  lemma Continue(run: seq<State>, step: Step, interrupts: bool, directed: bool, idle: bool) returns (longer: seq<State>)
    requires OrderRun(run, interrupts, directed, idle)
    requires Enabled(Last(run), step, interrupts) && Permitted(Last(run), step, directed, idle)
    ensures Last(run).mx.waitq == Last(run).w.queue(MX)
    ensures OrderRun(longer, interrupts, directed, idle) && |longer| == |run| + 1 && longer[..|run|] == run && longer[0] == run[0]
    ensures Last(longer) == Apply(Last(run), step, interrupts)
  {
    Restricts(run, interrupts, directed, idle);
    RunsAreGood(run, interrupts, |run| - 1);
    longer := run + [Apply(Last(run), step, interrupts)];
    forall i | 0 <= i < |longer| - 1 ensures OrderNext(longer[i], longer[i + 1], interrupts, directed, idle) {
      assert i < |run| - 1 ==> OrderNext(run[i], run[i + 1], interrupts, directed, idle);
      assert i == |run| - 1 ==> longer[i] == Last(run);
    }
  }

  /** A run of one policy, put together step by step */
  ghost predicate Scripted(run: seq<State>, interrupts: bool, fair: bool, directed: bool) {
    OrderRun(run, interrupts, directed, true) && forall i :: 0 <= i < |run| ==> run[i].mx.fair == fair
  }

  lemma ScriptsAreRuns(run: seq<State>, interrupts: bool, fair: bool, directed: bool)
    requires Scripted(run, interrupts, fair, directed)
    ensures PolicyRun(run, interrupts, fair) && OrderRun(run, interrupts, false, true) && OrderRun(run, interrupts, directed, false)
  {
    Restricts(run, interrupts, directed, true);
  }

  lemma PolicyStays(s: State, step: Step, interrupts: bool)
    requires s.mx.waitq == s.w.queue(MX) && Enabled(s, step, interrupts) && !step.SetFair?
    ensures Apply(s, step, interrupts).mx.fair == s.mx.fair
  {
  }

  lemma Go(run: seq<State>, step: Step, interrupts: bool, fair: bool, directed: bool) returns (longer: seq<State>)
    requires Scripted(run, interrupts, fair, directed) && Enabled(Last(run), step, interrupts) && !step.SetFair?
    requires directed && step.Other? ==> DW.DirectedStep(step.ws)
    ensures Last(run).mx.waitq == Last(run).w.queue(MX)
    ensures Scripted(longer, interrupts, fair, directed) && longer[0] == run[0] && Last(longer) == Apply(Last(run), step, interrupts)
  {
    longer := Continue(run, step, interrupts, directed, true);
    PolicyStays(Last(run), step, interrupts);
    forall i | 0 <= i < |longer| ensures longer[i].mx.fair == fair {
      assert i < |run| ==> longer[i] == longer[..|run|][i];
    }
  }

  /** A thread with a scheduler of its own calls pth_mutex_acquire and parks. */
  lemma GoPark(run: seq<State>, t: Tid, interrupts: bool, fair: bool, directed: bool) returns (longer: seq<State>)
    requires Scripted(run, interrupts, fair, directed)
    requires var s := Last(run);
             && s.w.phase(t) == Wakeup.Active && s.w.Idle(s.w.home(t))
             && s.mx.initialized && s.mx.locked && s.mx.owner != Some(t)
    ensures Scripted(longer, interrupts, fair, directed) && longer[0] == run[0]
    ensures var s, s' := Last(run), Last(longer);
            && s'.w.home == s.w.home && s'.w.posts == s.w.posts && s'.w.inbox == s.w.inbox && s'.w.occurred == s.w.occurred
            && (forall u :: s'.w.phase(u) == if u == t then Wakeup.Parked(MX) else s.w.phase(u))
            && (forall r :: s'.w.current(r) == if r == s.w.home(t) then Some(t) else s.w.current(r))
            && s'.mx == s.mx.(waitq := s.mx.waitq + [t])
            && s'.next == s.next + 1 && s'.grants == s.grants
            && (forall u :: s'.ticket(u) == if u == t then s.next else s.ticket(u))
  {
    longer := Go(run, Other(Wakeup.Dispatch(t)), interrupts, fair, directed);
    longer := Go(longer, Acquire(t, false), interrupts, fair, directed);
  }

  /** A thread with a scheduler of its own calls pth_mutex_acquire, finds the mutex taken and blocks. */
  lemma GoQueue(run: seq<State>, t: Tid, interrupts: bool, fair: bool, directed: bool) returns (longer: seq<State>)
    requires Scripted(run, interrupts, fair, directed)
    requires var s := Last(run);
             && s.w.phase(t) == Wakeup.Active && s.w.Idle(s.w.home(t))
             && s.mx.initialized && s.mx.locked && s.mx.owner != Some(t)
    ensures Scripted(longer, interrupts, fair, directed) && longer[0] == run[0]
    ensures var s, s' := Last(run), Last(longer);
            && s'.w.home == s.w.home && s'.w.posts == s.w.posts && s'.w.inbox == s.w.inbox
            && (forall u :: s'.w.phase(u) == if u == t then Wakeup.Waiting(MX) else s.w.phase(u))
            && s'.w.current(s.w.home(t)) == None && (forall r :: r != s.w.home(t) ==> s'.w.current(r) == s.w.current(r))
            && s'.w.occurred <= s.w.occurred && Wakeup.Wake(t, Wakeup.MutexEvent) !in s'.w.occurred
            && s'.mx == s.mx.(waitq := s.mx.waitq + [t])
            && s'.next == s.next + 1 && s'.grants == s.grants
            && (forall u :: s'.ticket(u) == if u == t then s.next else s.ticket(u))
  {
    longer := GoPark(run, t, interrupts, fair, directed);
    longer := Go(longer, Other(Wakeup.Block(t)), interrupts, fair, directed);
  }

  /** Thread 1 holds the mutex, threads 2 and 3 wait for it in that order, each on a scheduler of its own. */
  ghost predicate TwoQueued(s: State, fair: bool) {
    && (forall t :: s.w.home(t) == t && s.w.posts(t) == {} && s.w.inbox(t) == [])
    && (forall t :: s.w.phase(t) == if t == 2 || t == 3 then Wakeup.Waiting(MX) else Wakeup.Active)
    && (forall t :: s.w.current(t) == if t == 1 then Some(1) else None)
    && Wakeup.Wake(2, Wakeup.MutexEvent) !in s.w.occurred
    && s.mx == Mx(true, true, fair, Some(1), 1, [2, 3], {1})
    && s.ticket(2) == 0 && s.ticket(3) == 1 && s.grants == []
  }

  /** Thread 1 holds the mutex, and nobody else does anything. */
  ghost predicate OneHolds(s: State, fair: bool) {
    && (forall t :: s.w.home(t) == t && s.w.posts(t) == {} && s.w.inbox(t) == [] && s.w.phase(t) == Wakeup.Active)
    && (forall t :: s.w.current(t) == if t == 1 then Some(1) else None)
    && s.w.occurred == {} && s.mx == Mx(true, true, fair, Some(1), 1, [], {1}) && s.next == 0 && s.grants == []
  }

  /** Thread 1 runs, and nobody has done anything yet. */
  ghost predicate OneRuns(s: State, fair: bool) {
    && (forall t :: s.w.home(t) == t && s.w.posts(t) == {} && s.w.inbox(t) == [] && s.w.phase(t) == Wakeup.Active)
    && (forall t :: s.w.current(t) == if t == 1 then Some(1) else None)
    && s.w.occurred == {} && s.mx == Mx(true, false, fair, None, 0, [], {}) && s.next == 0 && s.grants == []
  }

  lemma StartOne(interrupts: bool, fair: bool, directed: bool) returns (run: seq<State>)
    ensures Scripted(run, interrupts, fair, directed) && run[0] == Fresh(fair) && OneRuns(Last(run), fair)
  {
    run := [Fresh(fair)];
    run := Go(run, Other(Wakeup.Dispatch(1)), interrupts, fair, directed);
  }

  lemma TakeOne(interrupts: bool, fair: bool, directed: bool) returns (run: seq<State>)
    ensures Scripted(run, interrupts, fair, directed) && run[0] == Fresh(fair) && OneHolds(Last(run), fair)
  {
    run := StartOne(interrupts, fair, directed);
    run := Go(run, Acquire(1, false), interrupts, fair, directed);
  }

  lemma QueueTwo(interrupts: bool, fair: bool, directed: bool) returns (run: seq<State>)
    ensures Scripted(run, interrupts, fair, directed) && run[0] == Fresh(fair) && TwoQueued(Last(run), fair)
  {
    run := TakeOne(interrupts, fair, directed);
    run := GoQueue(run, 2, interrupts, fair, directed);
    assert [] + [2] == [2] && [2] + [3] == [2, 3];
    run := GoQueue(run, 3, interrupts, fair, directed);
  }

  /** A waiter is made ready without its wakeup and gets the processor. */
  lemma GoReady(run: seq<State>, t: Tid, interrupts: bool, fair: bool) returns (longer: seq<State>)
    requires Scripted(run, interrupts, fair, false)
    requires Last(run).w.phase(t) == Wakeup.Waiting(MX) && Last(run).w.Idle(Last(run).w.home(t))
    ensures Scripted(longer, interrupts, fair, false) && longer[0] == run[0]
    ensures var s, s' := Last(run), Last(longer);
            && s'.mx == s.mx && s'.ticket == s.ticket && s'.next == s.next && s'.grants == s.grants
            && s'.w.home == s.w.home && s'.w.posts == s.w.posts && s'.w.occurred == s.w.occurred
            && (forall u :: s'.w.phase(u) == if u == t then Wakeup.Awake(MX) else s.w.phase(u))
            && (forall r :: s'.w.current(r) == if r == s.w.home(t) then Some(t) else s.w.current(r))
  {
    longer := Go(run, Other(Wakeup.Promote(t, false)), interrupts, fair, false);
    longer := Go(longer, Other(Wakeup.Dispatch(t)), interrupts, fair, false);
  }

  /** A waiter is made ready without its wakeup, by an extra event or for no reason, and takes the spinlock. */
  lemma GoResume(run: seq<State>, t: Tid, extra: bool, interrupts: bool, fair: bool) returns (longer: seq<State>)
    requires Scripted(run, interrupts, fair, false) && (extra ==> interrupts)
    requires Last(run).w.phase(t) == Wakeup.Waiting(MX) && Last(run).w.Idle(Last(run).w.home(t))
    ensures Scripted(longer, interrupts, fair, false) && longer[0] == run[0]
    ensures var s, s' := Last(run), Last(longer);
            var (mx, v) := Recheck(s.mx, t, extra, Wakeup.Wake(t, Wakeup.MutexEvent) !in s.w.occurred);
            && s'.mx == mx && s'.ticket == s.ticket && s'.next == s.next && s'.grants == s.grants
            && s'.w.home == s.w.home && s'.w.posts == s.w.posts && s'.w.occurred == s.w.occurred
            && (forall u :: s'.w.phase(u) == if u != t then s.w.phase(u) else if v == Queued then Wakeup.Parked(MX) else Wakeup.Active)
            && (forall r :: s'.w.current(r) == if r == s.w.home(t) then Some(t) else s.w.current(r))
  {
    longer := GoReady(run, t, interrupts, fair);
    longer := Go(longer, Resume(t, extra), interrupts, fair, false);
  }

  /** Thread 1 releases a mutex that is not fair: thread 2 is dequeued, thread 3 is not. */
  lemma OneWokenOneQueued() returns (run: seq<State>)
    ensures Scripted(run, true, false, false)
    ensures var s := Last(run);
            && s.w.home(2) == 2 && s.w.Idle(2) && Wakeup.Wake(2, Wakeup.MutexEvent) !in s.w.occurred
            && (forall t :: s.w.phase(t) == if t == 2 || t == 3 then Wakeup.Waiting(MX) else Wakeup.Active)
            && s.mx == Mx(true, false, false, None, 0, [3], {})
  {
    run := QueueTwo(true, false, false);
    run := Go(run, Unlock(1), true, false, false);
  }

  /** Nobody who waits for the open mutex has been woken, and somebody does wait. */
  ghost predicate Stranded(s: State) {
    !s.mx.locked && s.mx.waitq != [] && forall t :: s.w.WaitsOn(t, MX) ==> t in s.mx.waitq
  }

  /** The woken waiter's extra event occurs first: it leaves with EINTR and its wakeup with it. */
  lemma TimeoutStrands() returns (run: seq<State>)
    ensures Scripted(run, true, false, false) && Stranded(Last(run))
  {
    run := OneWokenOneQueued();
    assert Remove([3], 2) == [3];
    run := GoResume(run, 2, true, true, false);
  }

  /** The woken waiter is cancelled: its cleanup handler finds it neither queued nor owner. */
  lemma CancellationStrands() returns (run: seq<State>)
    ensures Scripted(run, true, false, false) && Stranded(Last(run))
  {
    run := OneWokenOneQueued();
    assert Remove([3], 2) == [3];
    run := Go(run, CancelWait(2), true, false, false);
  }

  lemma {:induction false} FairRunsHandOff(run: seq<State>, interrupts: bool, i: nat)
    requires PolicyRun(run, interrupts, true) && i < |run|
    ensures Core(run[i]) && HandsOff(run[i])
  {
    if i > 0 {
      FairRunsHandOff(run, interrupts, i - 1);
      assert Next(run[i - 1], run[i], interrupts);
      var step :| Enabled(run[i - 1], step, interrupts) && run[i] == Apply(run[i - 1], step, interrupts);
      StepKeepsCore(run[i - 1], step, interrupts);
      StepKeepsHandsOff(run[i - 1], step, interrupts);
    }
  }

  ghost predicate NeverStrands(interrupts: bool, fair: bool) {
    forall run: seq<State>, i :: PolicyRun(run, interrupts, fair) && 0 <= i < |run| ==> !Stranded(run[i])
  }

  /** No run strands a queue exactly if the mutex is fair, or no wait is given a second event or cancelled. */
  lemma NeverStrandsExactlyWhen(interrupts: bool, fair: bool)
    ensures NeverStrands(interrupts, fair) <==> fair || !interrupts
  {
    if fair || !interrupts {
      forall run: seq<State>, i | PolicyRun(run, interrupts, fair) && 0 <= i < |run| ensures !Stranded(run[i]) {
        RunsAreGood(run, interrupts, i);
        if fair {
          FairRunsHandOff(run, interrupts, i);
        }
      }
    } else {
      var run := TimeoutStrands();
      ScriptsAreRuns(run, true, false, false);
      assert Stranded(run[|run| - 1]);
    }
  }
}

/** The order in which a fair mutex is handed over, against the order in which its callers first parked. */
module MutexOrder {
  import opened Basics
  import opened MutexSections
  import opened MutexProtocol
  import opened MutexStranding
  import Wakeup
  import DW = DirectedWakeup

  ghost predicate Ascending(g: seq<int>) {
    forall k, l :: 0 <= k < l < |g| ==> g[k] < g[l]
  }

  /** Waiters stand in order of arrival, behind everyone who was ever handed the lock. */
  ghost predicate InOrder(ticket: Tid -> int, next: int, q: seq<Tid>, grants: seq<int>) {
    && (forall i, j :: 0 <= i < j < |q| ==> ticket(q[i]) < ticket(q[j]))
    && (forall i :: 0 <= i < |q| ==> ticket(q[i]) < next)
    && Ascending(grants)
    && (forall k :: 0 <= k < |grants| ==> grants[k] < next)
    && (forall k, i :: 0 <= k < |grants| && 0 <= i < |q| ==> grants[k] < ticket(q[i]))
  }

  ghost predicate Fifo(s: State) {
    InOrder(s.ticket, s.next, s.mx.waitq, s.grants)
  }

  lemma DepartKeepsOrder(ticket: Tid -> int, next: int, q: seq<Tid>, grants: seq<int>, t: Tid)
    requires InOrder(ticket, next, q, grants) && NoDup(q)
    ensures InOrder(ticket, next, Remove(q, t), grants)
  {
    if t in q {
      var k :| 0 <= k < |q| && q[k] == t;
      RemoveAt(q, t, k);
    }
  }

  lemma ArriveKeepsOrder(ticket: Tid -> int, next: int, q: seq<Tid>, grants: seq<int>, t: Tid)
    requires InOrder(ticket, next, q, grants) && t !in q
    ensures InOrder(Set(ticket, t, next), next + 1, q + [t], grants)
  {
  }

  lemma GrantKeepsOrder(ticket: Tid -> int, next: int, q: seq<Tid>, grants: seq<int>)
    requires InOrder(ticket, next, q, grants) && q != []
    ensures InOrder(ticket, next, q[1..], grants + [ticket(q[0])])
  {
  }

  /** A waiter sent back to the end of the queue is out of order exactly if somebody stood behind it. */
  lemma ReparkKeepsOrder(ticket: Tid -> int, next: int, q: seq<Tid>, grants: seq<int>, t: Tid)
    requires InOrder(ticket, next, q, grants) && NoDup(q) && t in q
    ensures InOrder(ticket, next, Remove(q, t) + [t], grants) <==> q[|q| - 1] == t
  {
    var k :| 0 <= k < |q| && q[k] == t;
    RemoveAt(q, t, k);
    var r := Remove(q, t) + [t];
    if k == |q| - 1 {
      assert r == q;
    } else {
      assert r[|q| - 2] == q[|q| - 1] && r[|q| - 1] == t;
    }
  }

  lemma AcquireEffect(s: State, t: Tid, tryOnly: bool, interrupts: bool)
    requires Core(s) && Enabled(s, Acquire(t, tryOnly), interrupts)
    ensures var s', queued := Apply(s, Acquire(t, tryOnly), interrupts), Enter(s.mx, t, tryOnly).1 == Queued;
            && s'.grants == s.grants && t !in s.mx.waitq
            && s'.mx.waitq == (if queued then s.mx.waitq + [t] else s.mx.waitq)
            && s'.next == (if queued then s.next + 1 else s.next)
            && s'.ticket == (if queued then Set(s.ticket, t, s.next) else s.ticket)
  {
  }

  lemma AcquireKeepsFifo(s: State, t: Tid, tryOnly: bool, interrupts: bool)
    requires Core(s) && Fifo(s) && Enabled(s, Acquire(t, tryOnly), interrupts)
    ensures Fifo(Apply(s, Acquire(t, tryOnly), interrupts))
  {
    AcquireEffect(s, t, tryOnly, interrupts);
    if Enter(s.mx, t, tryOnly).1 == Queued {
      ArriveKeepsOrder(s.ticket, s.next, s.mx.waitq, s.grants, t);
    }
  }

  lemma CancelEffect(s: State, t: Tid, interrupts: bool)
    requires Core(s) && Enabled(s, CancelWait(t), interrupts)
    ensures var q, s' := s.mx.waitq, Apply(s, CancelWait(t), interrupts);
            && s'.ticket == s.ticket && s'.next == s.next
            && if s.mx.owner == Some(t) && q != []
               then s'.mx.waitq == q[1..] && s'.grants == s.grants + [s.ticket(q[0])]
               else s'.mx.waitq == Remove(q, t) && s'.grants == s.grants
  {
    Wakeup.DepartFrame(s.w, t, MX);
  }

  lemma CancelKeepsFifo(s: State, t: Tid, interrupts: bool)
    requires Core(s) && Fifo(s) && Enabled(s, CancelWait(t), interrupts)
    ensures Fifo(Apply(s, CancelWait(t), interrupts))
  {
    CancelEffect(s, t, interrupts);
    if s.mx.owner == Some(t) && s.mx.waitq != [] {
      GrantKeepsOrder(s.ticket, s.next, s.mx.waitq, s.grants);
    } else {
      DepartKeepsOrder(s.ticket, s.next, s.mx.waitq, s.grants, t);
    }
  }

  lemma UnlockKeepsFifo(s: State, t: Tid, interrupts: bool)
    requires Core(s) && Handing(s) && Fifo(s) && Enabled(s, Unlock(t), interrupts)
    ensures Fifo(Apply(s, Unlock(t), interrupts))
  {
    if Leave(s.mx, t).2.Some? {
      GrantKeepsOrder(s.ticket, s.next, s.mx.waitq, s.grants);
    }
  }

  /**
   Fair mode: a resumed waiter keeps its place exactly when it was dequeued, is interrupted, or was
   last. A waiter resumed without the lock while others stand behind it goes to the end of the queue.
   */
  lemma ResumeKeepsOrderExactlyWhen(s: State, t: Tid, extra: bool, interrupts: bool)
    requires Core(s) && Handing(s) && HandsOff(s) && Fifo(s) && Enabled(s, Resume(t, extra), interrupts)
    ensures var q, pending := s.mx.waitq, Wakeup.Wake(t, Wakeup.MutexEvent) !in s.w.occurred;
            Fifo(Apply(s, Resume(t, extra), interrupts)) <==> t !in q || (extra && pending) || q[|q| - 1] == t
  {
    var q, s' := s.mx.waitq, Apply(s, Resume(t, extra), interrupts);
    var pending := Wakeup.Wake(t, Wakeup.MutexEvent) !in s.w.occurred;
    assert s'.ticket == s.ticket && s'.next == s.next && s'.grants == s.grants;
    if t !in q {
      assert s.w.WaitsOn(t, MX) && s'.mx.waitq == q;
    } else {
      assert s.mx.locked && s.mx.owner != Some(t);
      DepartKeepsOrder(s.ticket, s.next, q, s.grants, t);
      ReparkKeepsOrder(s.ticket, s.next, q, s.grants, t);
      assert s'.mx.waitq == if extra && pending then Remove(q, t) else Remove(q, t) + [t];
    }
  }

  // Runs

  /** While the mutex is not handed over, the order of its queue is nobody's promise. */
  ghost predicate GrantsOk(s: State) {
    Ascending(s.grants) && (forall k :: 0 <= k < |s.grants| ==> s.grants[k] < s.next) && (Handing(s) ==> Fifo(s))
  }

  ghost predicate DirectedGood(s: State, interrupts: bool) {
    Good(s, interrupts) && (Handing(s) ==> HandsOff(s)) && DW.Addressed(s.w, DW.ALL) && GrantsOk(s)
  }

  lemma WorldKeeps(w: Wakeup.World, ws: Wakeup.Step)
    requires Wakeup.Inv(w) && DW.Addressed(w, DW.ALL) && Wakeup.Enabled(w, ws) && DW.DirectedStep(ws)
    ensures Wakeup.Inv(Wakeup.Apply(w, ws)) && DW.Addressed(Wakeup.Apply(w, ws), DW.ALL)
  {
    DW.DirectedIsCareful(w, ws);
    Wakeup.StepKeepsInv(w, ws);
    DW.StepKeepsAddressed(w, ws, DW.ALL);
  }

  lemma StepKeepsDirected(s: State, step: Step, interrupts: bool)
    requires Core(s) && DW.Addressed(s.w, DW.ALL) && Enabled(s, step, interrupts) && Permitted(s, step, true, true)
    ensures DW.Addressed(Apply(s, step, interrupts).w, DW.ALL)
  {
    match step
    case Other(ws) => WorldKeeps(s.w, ws);
    case Acquire(t, tryOnly) =>
      if Enter(s.mx, t, tryOnly).1 == Queued {
        WorldKeeps(s.w, Wakeup.Park(t, MX));
      }
    case Resume(t, extra) =>
      WorldKeeps(s.w, Wakeup.Leave(t));
      var pending := Wakeup.Wake(t, Wakeup.MutexEvent) !in s.w.occurred;
      if Recheck(s.mx, t, extra, pending).1 == Queued {
        WorldKeeps(Wakeup.Apply(s.w, Wakeup.Leave(t)), Wakeup.Park(t, MX));
      }
    case CancelWait(t) =>
      WorldKeeps(s.w, Wakeup.Departure(s.w, t));
      var w1 := Wakeup.Apply(s.w, Wakeup.Departure(s.w, t));
      if Cleanup(s.mx, t).1.Some? && w1.queue(MX) != [] {
        WorldKeeps(w1, Wakeup.Shift(s.w.home(t), MX, 1));
      }
    case Unlock(t) =>
      if Leave(s.mx, t).2.Some? {
        WorldKeeps(s.w, Wakeup.Shift(s.w.home(t), MX, 1));
      }
    case SetFair(t, on) =>
  }

  /** While the mutex is not being handed over, a waiter's return does not change that, nor the record. */
  lemma PlainResume(s: State, t: Tid, extra: bool, interrupts: bool)
    requires Core(s) && !Handing(s) && Enabled(s, Resume(t, extra), interrupts)
    ensures var s' := Apply(s, Resume(t, extra), interrupts);
            !Handing(s') && s'.grants == s.grants && s'.next == s.next
  {
  }

  lemma ResumeKeepsGrants(s: State, t: Tid, extra: bool, interrupts: bool)
    requires DirectedGood(s, interrupts) && Enabled(s, Resume(t, extra), interrupts)
    ensures GrantsOk(Apply(s, Resume(t, extra), interrupts))
  {
    if Handing(s) {
      DW.BackIsQuiet(s.w, t);
      ResumeKeepsOrderExactlyWhen(s, t, extra, interrupts);
    } else {
      PlainResume(s, t, extra, interrupts);
    }
  }

  lemma PlainCancel(s: State, t: Tid, interrupts: bool)
    requires Core(s) && !Handing(s) && Enabled(s, CancelWait(t), interrupts)
    ensures var s' := Apply(s, CancelWait(t), interrupts);
            !Handing(s') && s'.grants == s.grants && s'.next == s.next
  {
  }

  lemma CancelKeepsGrants(s: State, t: Tid, interrupts: bool)
    requires DirectedGood(s, interrupts) && Enabled(s, CancelWait(t), interrupts)
    ensures GrantsOk(Apply(s, CancelWait(t), interrupts))
  {
    if Handing(s) {
      CancelKeepsFifo(s, t, interrupts);
    } else {
      PlainCancel(s, t, interrupts);
    }
  }

  lemma UnlockKeepsGrants(s: State, t: Tid, interrupts: bool)
    requires DirectedGood(s, interrupts) && Enabled(s, Unlock(t), interrupts)
    ensures GrantsOk(Apply(s, Unlock(t), interrupts))
  {
    if Handing(s) {
      UnlockKeepsFifo(s, t, interrupts);
    }
  }

  lemma StepKeepsGrants(s: State, step: Step, interrupts: bool)
    requires DirectedGood(s, interrupts) && Enabled(s, step, interrupts) && Permitted(s, step, true, true)
    ensures GrantsOk(Apply(s, step, interrupts))
  {
    match step
    case Other(ws) => Wakeup.ElsewhereFrame(s.w, ws, MX);
    case Acquire(t, tryOnly) =>
      if Handing(s) {
        AcquireKeepsFifo(s, t, tryOnly, interrupts);
      }
    case Resume(t, extra) => ResumeKeepsGrants(s, t, extra, interrupts);
    case CancelWait(t) => CancelKeepsGrants(s, t, interrupts);
    case Unlock(t) => UnlockKeepsGrants(s, t, interrupts);
    case SetFair(t, on) => HeadWaits(s);
  }

  /** Nobody waits, so the switch is calm. */
  lemma StepKeepsFair(s: State, step: Step, interrupts: bool)
    requires Core(s) && (Handing(s) ==> HandsOff(s)) && Enabled(s, step, interrupts) && Permitted(s, step, true, true)
    ensures Handing(Apply(s, step, interrupts)) ==> HandsOff(Apply(s, step, interrupts))
  {
    HeadWaits(s);
    StepKeepsHandsOff(s, step, interrupts);
  }

  lemma {:induction false} DirectedRunsAreGood(run: seq<State>, interrupts: bool, i: nat)
    requires OrderRun(run, interrupts, true, true) && i < |run|
    ensures DirectedGood(run[i], interrupts)
  {
    if i == 0 {
      DW.StartIsAddressed(run[0].w, DW.ALL);
    } else {
      DirectedRunsAreGood(run, interrupts, i - 1);
      assert OrderNext(run[i - 1], run[i], interrupts, true, true);
      var step :| Enabled(run[i - 1], step, interrupts) && Permitted(run[i - 1], step, true, true) && run[i] == Apply(run[i - 1], step, interrupts);
      StepKeepsGood(run[i - 1], step, interrupts);
      StepKeepsFair(run[i - 1], step, interrupts);
      StepKeepsDirected(run[i - 1], step, interrupts);
      StepKeepsGrants(run[i - 1], step, interrupts);
    }
  }

  /**
   If every wait is ended by its wakeup, a fair mutex is handed over in the order in which its waiters
   first parked, whatever calls, cancellations and changes of policy the run holds.
   */
  lemma FairHandOffsInOrder(run: seq<State>, interrupts: bool, i: nat)
    requires OrderRun(run, interrupts, true, true) && i < |run|
    ensures Ascending(run[i].grants) && (run[i].mx.fair ==> Fifo(run[i]))
  {
    DirectedRunsAreGood(run, interrupts, i);
  }

  /** Thread 1 holds a fair mutex and 2 came before 3, but 2 is resumed for nothing and parks again behind 3. */
  ghost predicate SentBack(s: State) {
    && (forall t :: s.w.home(t) == t && s.w.posts(t) == {}) && s.w.phase(1) == Wakeup.Active && s.w.current(1) == Some(1)
    && s.w.phase(3) == Wakeup.Waiting(MX) && s.w.current(3) == None
    && s.mx == Mx(true, true, true, Some(1), 1, [3, 2], {1})
    && s.ticket(2) == 0 && s.ticket(3) == 1 && s.grants == []
  }

  lemma ResumedForNothing(interrupts: bool) returns (run: seq<State>)
    ensures Scripted(run, interrupts, true, false) && run[0] == Fresh(true) && SentBack(Last(run))
  {
    run := QueueTwo(interrupts, true, false);
    assert Remove([2, 3], 2) == [3] && [3] + [2] == [3, 2];
    run := GoResume(run, 2, false, interrupts, true);
  }

  /** Thread 3 is handed the mutex and takes it. */
  ghost predicate LateComerHolds(s: State) {
    && s.w.home(3) == 3 && s.w.posts(3) == {} && s.w.phase(3) == Wakeup.Active && s.w.current(3) == Some(3)
    && s.mx == Mx(true, true, true, Some(3), 1, [2], {3}) && s.ticket(2) == 0 && s.grants == [1]
  }

  lemma LateComerTakes(interrupts: bool) returns (run: seq<State>)
    ensures Scripted(run, interrupts, true, false) && run[0] == Fresh(true) && LateComerHolds(Last(run))
  {
    run := ResumedForNothing(interrupts);
    run := Go(run, Unlock(1), interrupts, true, false);
    assert Last(run).mx == Mx(true, true, true, Some(3), 1, [2], {});
    run := GoResume(run, 3, false, interrupts, true);
  }

  /** So thread 3 gets the mutex before thread 2, who arrived first. */
  lemma LateComerOvertakes(interrupts: bool) returns (run: seq<State>)
    ensures OrderRun(run, interrupts, false, true) && Last(run).grants == [1, 0]
  {
    run := LateComerTakes(interrupts);
    run := Go(run, Unlock(3), interrupts, true, false);
  }

  // Fair mode switched on while somebody waits

  /** A mutex that is not fair was released: 2 is on its way to it, 3 is queued, and 1 is still running. */
  ghost predicate OneWoken(s: State) {
    && (forall t :: s.w.home(t) == t && s.w.posts(t) == {})
    && (forall t :: s.w.phase(t) == if t == 2 || t == 3 then Wakeup.Waiting(MX) else Wakeup.Active)
    && (forall t :: s.w.current(t) == if t == 1 then Some(1) else None)
    && s.w.inbox(2) == [Wakeup.Wake(2, Wakeup.MutexEvent)] && s.w.inbox(3) == []
    && s.mx == Mx(true, false, false, None, 0, [3], {})
    && s.ticket(2) == 0 && s.ticket(3) == 1 && s.grants == []
  }

  lemma ReleaseToTwo(interrupts: bool) returns (run: seq<State>)
    ensures OrderRun(run, interrupts, true, false) && OneWoken(Last(run))
  {
    run := QueueTwo(interrupts, false, true);
    ScriptsAreRuns(run, interrupts, false, true);
    EventOf(run, interrupts, 2);
    run := Continue(run, Unlock(1), interrupts, true, false);
    assert [2, 3][..1] == [2] && [2, 3][1..] == [3];
    assert Last(run).w.posts(1) == {2};
    run := Continue(run, Other(Wakeup.Post(1, 2)), interrupts, true, false);
  }

  lemma EventOf(run: seq<State>, interrupts: bool, t: Tid)
    requires OrderRun(run, interrupts, true, false) && Last(run).w.WaitsOn(t, MX)
    ensures Last(run).w.wqEvent(t) == Wakeup.MutexEvent
  {
    Restricts(run, interrupts, true, false);
    RunsAreGood(run, interrupts, |run| - 1);
  }

  /** The thread that switches to fair mode then takes the mutex past both. */
  lemma SwitchThenBarge(interrupts: bool) returns (run: seq<State>)
    ensures FairRun(run, interrupts, false) && |run| >= 2 && PassesUnfairly(run[|run| - 2], run[|run| - 1])
  {
    run := ReleaseToTwo(interrupts);
    run := Continue(run, SetFair(1, true), interrupts, true, false);
    var s := Last(run);
    assert s.w.WaitsOn(2, MX);
    run := Continue(run, Acquire(1, false), interrupts, true, false);
    assert run[|run| - 2] == s;
    Restricts(run, interrupts, true, false);
  }

  ghost predicate AlwaysFair(interrupts: bool, calm: bool) {
    forall run: seq<State>, i :: FairRun(run, interrupts, calm) && 0 <= i < |run| - 1 ==> !PassesUnfairly(run[i], run[i + 1])
  }

  /** Fair mode keeps its promise in every run exactly if it is switched on with care. */
  lemma FairExactlyWhen(interrupts: bool, calm: bool)
    ensures AlwaysFair(interrupts, calm) <==> calm
  {
    if calm {
      forall run: seq<State>, i | FairRun(run, interrupts, calm) && 0 <= i < |run| - 1 ensures !PassesUnfairly(run[i], run[i + 1]) {
        FairOwnerPasses(run, interrupts, i);
      }
    } else {
      var run := SwitchThenBarge(interrupts);
      var i := |run| - 2;
      assert PassesUnfairly(run[i], run[i + 1]);
    }
  }

  /** A waiter's wakeup is applied and it gets the processor. */
  lemma GoWoken(run: seq<State>, t: Tid, interrupts: bool) returns (longer: seq<State>)
    requires OrderRun(run, interrupts, true, false)
    requires var s := Last(run);
             && s.w.phase(t) == Wakeup.Waiting(MX) && s.w.Idle(s.w.home(t))
             && s.w.inbox(s.w.home(t)) == [Wakeup.Wake(t, Wakeup.MutexEvent)]
    ensures OrderRun(longer, interrupts, true, false)
    ensures var s, s' := Last(run), Last(longer);
            && s'.mx == s.mx && s'.ticket == s.ticket && s'.next == s.next && s'.grants == s.grants
            && s'.w.home == s.w.home && s'.w.posts == s.w.posts
            && (forall u :: s'.w.phase(u) == if u == t then Wakeup.Awake(MX) else s.w.phase(u))
            && (forall r :: s'.w.current(r) == if r == s.w.home(t) then Some(t) else s.w.current(r))
            && (forall r :: r != s.w.home(t) ==> s'.w.inbox(r) == s.w.inbox(r))
  {
    longer := Continue(run, Other(Wakeup.Deliver(Last(run).w.home(t))), interrupts, true, false);
    longer := Continue(longer, Other(Wakeup.Promote(t, true)), interrupts, true, false);
    longer := Continue(longer, Other(Wakeup.Dispatch(t)), interrupts, true, false);
  }

  /** Thread 1 has taken the mutex again before 2 came back, and 2 has just got the processor. */
  ghost predicate Barged(s: State) {
    && (forall t :: s.w.home(t) == t && s.w.posts(t) == {}) && s.w.inbox(3) == []
    && (forall t :: s.w.phase(t) == if t == 2 then Wakeup.Awake(MX) else if t == 3 then Wakeup.Waiting(MX) else Wakeup.Active)
    && (forall t :: s.w.current(t) == if t == 1 || t == 2 then Some(t) else None)
    && s.mx == Mx(true, true, false, Some(1), 1, [3], {1})
    && s.ticket(2) == 0 && s.ticket(3) == 1 && s.grants == []
  }

  lemma BargePast(interrupts: bool) returns (run: seq<State>)
    ensures OrderRun(run, interrupts, true, false) && Barged(Last(run))
  {
    run := ReleaseToTwo(interrupts);
    run := Continue(run, Acquire(1, false), interrupts, true, false);
    run := GoWoken(run, 2, interrupts);
  }

  /** Thread 2 parks again, behind 3. */
  ghost predicate Reparked(s: State) {
    && (forall t :: s.w.home(t) == t && s.w.posts(t) == {}) && s.w.phase(1) == Wakeup.Active && s.w.current(1) == Some(1)
    && s.w.phase(3) == Wakeup.Waiting(MX) && s.w.current(3) == None && s.w.inbox(3) == []
    && s.mx == Mx(true, true, false, Some(1), 1, [3, 2], {1})
    && s.ticket(2) == 0 && s.ticket(3) == 1 && s.grants == []
  }

  lemma ParksBehind(s: State, interrupts: bool)
    requires Barged(s) && s.mx.waitq == s.w.queue(MX)
    ensures Enabled(s, Resume(2, false), interrupts) && Reparked(Apply(s, Resume(2, false), interrupts))
  {
    assert Remove([3], 2) == [3] && [3] + [2] == [3, 2];
  }

  lemma ParkAgain(interrupts: bool) returns (run: seq<State>)
    ensures OrderRun(run, interrupts, true, false) && Reparked(Last(run))
  {
    run := BargePast(interrupts);
    Restricts(run, interrupts, true, false);
    RunsAreGood(run, interrupts, |run| - 1);
    ParksBehind(Last(run), interrupts);
    run := Continue(run, Resume(2, false), interrupts, true, false);
  }

  /** Then the mutex is made fair. */
  lemma SwitchTooLate(interrupts: bool) returns (run: seq<State>)
    ensures OrderRun(run, interrupts, true, false) && SentBack(Last(run)) && Last(run).w.inbox(3) == []
  {
    run := ParkAgain(interrupts);
    run := Continue(run, SetFair(1, true), interrupts, true, false);
  }

  /** Thread 3 has been handed the mutex and its wakeup is in its inbox. */
  ghost predicate HandedToThree(s: State) {
    && (forall t :: s.w.home(t) == t && s.w.posts(t) == {}) && s.w.inbox(3) == [Wakeup.Wake(3, Wakeup.MutexEvent)]
    && s.w.phase(3) == Wakeup.Waiting(MX) && s.w.current(3) == None
    && s.mx == Mx(true, true, true, Some(3), 1, [2], {}) && s.ticket(2) == 0 && s.grants == [1]
  }

  lemma HandToThree(interrupts: bool) returns (run: seq<State>)
    ensures OrderRun(run, interrupts, true, false) && HandedToThree(Last(run))
  {
    run := SwitchTooLate(interrupts);
    EventOf(run, interrupts, 3);
    run := Continue(run, Unlock(1), interrupts, true, false);
    assert [3, 2][..1] == [3] && [3, 2][1..] == [2] && Last(run).w.posts(1) == {3};
    run := Continue(run, Other(Wakeup.Post(1, 3)), interrupts, true, false);
  }

  lemma LateComerIsCalled(interrupts: bool) returns (run: seq<State>)
    ensures OrderRun(run, interrupts, true, false) && LateComerHolds(Last(run))
  {
    run := HandToThree(interrupts);
    run := GoWoken(run, 3, interrupts);
    run := Continue(run, Resume(3, false), interrupts, true, false);
  }

  lemma LateSwitchOvertakes(interrupts: bool) returns (run: seq<State>)
    ensures OrderRun(run, interrupts, true, false) && Last(run).grants == [1, 0]
  {
    run := LateComerIsCalled(interrupts);
    run := Continue(run, Unlock(3), interrupts, true, false);
  }

  ghost predicate AlwaysInOrder(interrupts: bool, directed: bool, idle: bool) {
    forall run: seq<State>, i :: OrderRun(run, interrupts, directed, idle) && 0 <= i < |run| ==> Ascending(run[i].grants)
  }

  lemma NotInOrder(run: seq<State>, interrupts: bool, directed: bool, idle: bool)
    requires OrderRun(run, interrupts, directed, idle) && Last(run).grants == [1, 0]
    ensures !AlwaysInOrder(interrupts, directed, idle)
  {
    var g := run[|run| - 1].grants;
    assert g[0] > g[1] && !Ascending(g);
  }

  /**
   Hand-offs follow the order of arrival in every run exactly if waits are ended by their wakeups
   only, and fair mode is switched on only while nobody waits.
   */
  lemma InOrderExactlyWhen(interrupts: bool, directed: bool, idle: bool)
    ensures AlwaysInOrder(interrupts, directed, idle) <==> directed && idle
  {
    if !directed {
      var run := LateComerOvertakes(interrupts);
      Restricts(run, interrupts, false, true);
      NotInOrder(run, interrupts, false, idle);
    } else if !idle {
      var run := LateSwitchOvertakes(interrupts);
      NotInOrder(run, interrupts, true, false);
    } else {
      forall run: seq<State>, i | OrderRun(run, interrupts, true, true) && 0 <= i < |run| ensures Ascending(run[i].grants) {
        FairHandOffsInOrder(run, interrupts, i);
      }
    }
  }
}
