/**
 pth_join across schedulers (pth_lib.c, with the two ways to die of pth_sched.c and pth_cancel.c): the
 joiner parks on the target's own queue; the target's home scheduler stores the result, keeps the dead
 control block in its dead queue, publishes the death and wakes the joiner; the joiner reads the result
 and asks the home scheduler to free the block. A thread has one joiner, and nobody aborts it.
 */
module JoinSections {
  import opened Basics

  /** The join part of a control block, under its lock */
  class JoinPoint {
    var done: bool
    var arg: int
    var waitq: seq<Tid>

    /** A published death has nobody left to wake. */
    ghost predicate Valid()
      reads this
    {
      NoDup(waitq) && (done ==> waitq == [])
    }

    constructor ()
      ensures Valid() && !done && waitq == []
    {
      done, arg, waitq := false, 0, [];
    }

    /** The joiner parks unless the death is published; then it may read the result at once. */
    method Enter(j: Tid) returns (parked: bool, value: int)
      requires Valid() && j !in waitq
      modifies this`waitq
      ensures Valid() && parked == !done && value == arg
      ensures waitq == if parked then old(waitq) + [j] else []
    {
      parked, value := !done, arg;
      if parked {
        AppendKeepsNoDup(waitq, j);
        waitq := waitq + [j];
      }
    }

    /** Publishes the death and takes every joiner off the queue, in order. */
    method Publish() returns (woken: seq<Tid>)
      requires Valid()
      modifies this`done, this`waitq
      ensures Valid() && done && woken == old(waitq)
    {
      done := true;
      woken := [];
      while waitq != []
        invariant woken + waitq == old(waitq) && NoDup(waitq) && done
        decreases |waitq|
      {
        woken := woken + [waitq[0]];
        waitq := waitq[1..];
      }
    }

    /** Back from the wait: off the queue if nobody took the joiner off, and the result is read. */
    method Leave(j: Tid) returns (value: int)
      requires Valid()
      modifies this`waitq
      ensures Valid() && value == arg && waitq == Remove(old(waitq), j)
    {
      RemoveKeepsNoDup(waitq, j);
      waitq := Remove(waitq, j);
      value := arg;
    }
  }
}

/**
 Joiners, their targets and all home schedulers, among all other threads, in every interleaving. Other
 waits may be ended at any time, by timeouts or for no reason. A join is ended by its wakeup only, and
 is begun by a thread that no waker of an earlier wait still owes a wakeup.
 */
module RemoteJoin {
  import opened Basics
  import Wakeup
  import opened DirectedWakeup

  const CANCELED := -1
  const JOIN := {Wakeup.JoinEvent}

  datatype Life = Alive | InDq | Freed

  datatype Stage =
    | NoJoiner
    | Joining(j: Tid)             // parked, or on its way back
    | Got(j: Tid, value: int)     // has read the result
    | Posted(j: Tid, value: int)  // has asked for the block to be freed

  datatype Target = Target(done: bool, arg: int, life: Life, stage: Stage)

  /** `reaps` are the REAP messages in each inbox; `frees` records the calls of pth_tcb_free. */
  datatype State = State(w: Wakeup.World, target: Tid -> Target, reaps: Sid -> seq<Tid>, frees: seq<Tid>)
  {
    function Of(t: Tid): Target { target(t) }
  }

  datatype Step =
    | Other(ws: Wakeup.Step)
    | JoinCall(j: Tid, t: Tid)
    | JoinReturn(j: Tid, t: Tid)
    | PostReap(t: Tid)
    | Die(t: Tid, value: int)
    | Publish(t: Tid)
    | DrainReap(s: Sid)

  function Queue(t: Tid): Wakeup.Prim { Wakeup.Prim(Wakeup.JoinEvent, t) }

  /** Steps that neither join, nor wake a joiner, nor end a thread. */
  ghost predicate Foreign(w: Wakeup.World, ws: Wakeup.Step) {
    match ws
    case Park(t, p) => p.kind != Wakeup.JoinEvent
    case Shift(s, p, n) => p.kind != Wakeup.JoinEvent
    case Leave(t) => !Waits(w, t, JOIN)
    case Cancel(t) => false
    case Exit(t) => false
    case _ => true
  }

  /** By itself, or cancelled asynchronously in whatever wait it is in. */
  function Death(w: Wakeup.World, t: Tid): Wakeup.Step {
    if w.phase(t).Active? then Wakeup.Exit(t) else Wakeup.Cancel(t)
  }

  ghost predicate Enabled(s: State, step: Step) {
    match step
    case Other(ws) => Wakeup.Enabled(s.w, ws) && Careful(s.w, ws, JOIN) && Foreign(s.w, ws)
    case JoinCall(j, t) =>
      && s.w.Executes(j) && s.w.phase(j) == Wakeup.Active
      && s.w.home(j) != s.w.home(t) && s.Of(t).stage == NoJoiner
      && (!s.Of(t).done ==> !Owed(s.w, j))
    case JoinReturn(j, t) => s.w.Executes(j) && s.w.phase(j) == Wakeup.Awake(Queue(t))
    case PostReap(t) => s.Of(t).stage.Got?
    case Die(t, value) => Wakeup.Enabled(s.w, Death(s.w, t)) && (!s.w.Runs(t) ==> value == CANCELED)
    case Publish(t) => s.Of(t).life == InDq && !s.Of(t).done && s.w.posts(s.w.home(t)) == {}
    case DrainReap(sid) => s.w.Idle(sid) && s.reaps(sid) != []
  }

  function SetTarget(s: State, t: Tid, x: Target): State { s.(target := Set(s.target, t, x)) }

  /** A REAP deletes its thread from the dead queue and frees it, whatever state it is in. */
  ghost function Apply(s: State, step: Step): State
    requires Enabled(s, step)
  {
    match step
    case Other(ws) => s.(w := Wakeup.Apply(s.w, ws))
    case JoinCall(j, t) =>
      if s.Of(t).done then SetTarget(s, t, s.Of(t).(stage := Got(j, s.Of(t).arg)))
      else SetTarget(s, t, s.Of(t).(stage := Joining(j))).(w := Wakeup.Apply(s.w, Wakeup.Park(j, Queue(t))))
    case JoinReturn(j, t) =>
      SetTarget(s, t, s.Of(t).(stage := Got(j, s.Of(t).arg))).(w := Wakeup.Apply(s.w, Wakeup.Leave(j)))
    case PostReap(t) =>
      var sid := s.w.home(t);
      SetTarget(s, t, s.Of(t).(stage := Posted(s.Of(t).stage.j, s.Of(t).stage.value))).(
        reaps := Set(s.reaps, sid, s.reaps(sid) + [t]))
    case Die(t, value) =>
      SetTarget(s, t, s.Of(t).(arg := value, life := InDq)).(w := Wakeup.Apply(s.w, Death(s.w, t)))
    case Publish(t) =>
      SetTarget(s, t, s.Of(t).(done := true)).(
        w := Wakeup.Apply(s.w, Wakeup.Shift(s.w.home(t), Queue(t), |s.w.queue(Queue(t))|)))
    case DrainReap(sid) =>
      var t := s.reaps(sid)[0];
      SetTarget(s, t, s.Of(t).(life := Freed)).(reaps := Set(s.reaps, sid, s.reaps(sid)[1..]), frees := s.frees + [t])
  }

  predicate Untouched(s: State, t: Tid) { s.Of(t) == Target(false, 0, Alive, NoJoiner) }

  predicate NoReaps(s: State, sid: Sid) { s.reaps(sid) == [] }

  ghost predicate Init(s: State) {
    && Start(s.w) && s.frees == []
    && (forall t {:trigger s.target(t)} {:trigger Untouched(s, t)} :: Untouched(s, t))
    && (forall sid {:trigger s.reaps(sid)} {:trigger NoReaps(s, sid)} :: NoReaps(s, sid))
  }

  // The invariant

  /** Where a thread is in its life, against how far its joiner has come. */
  ghost predicate TargetOk(s: State, t: Tid) {
    var x := s.Of(t);
    && (x.life == Alive <==> s.w.phase(t) != Wakeup.Gone)
    && (x.done ==> x.life != Alive)
    && (x.stage.NoJoiner? || x.stage.Joining? ==> x.life != Freed)
    && (x.stage.Got? ==> x.done && x.stage.value == x.arg && x.life == InDq)
    && (x.stage.Posted? ==> x.done && x.stage.value == x.arg)
    && (x.life == Freed <==> t in s.frees)
  }

  /** A REAP is in the home inbox exactly between its posting and the free. */
  ghost predicate ReapOk(s: State, t: Tid, sid: Sid) {
    t in s.reaps(sid) <==> sid == s.w.home(t) && s.Of(t).stage.Posted? && s.Of(t).life == InDq
  }

  /** Who waits for `t` is its joiner, and is queued until the death is published. */
  ghost predicate WaiterOk(s: State, j: Tid, t: Tid) {
    && (s.w.WaitsOn(j, Queue(t)) ==> s.Of(t).stage == Joining(j) && (j in s.w.queue(Queue(t)) || s.Of(t).done))
    && (j in s.w.queue(Queue(t)) ==> !s.Of(t).done)
  }

  ghost predicate Inv(s: State) {
    && Wakeup.Inv(s.w) && Addressed(s.w, JOIN)
    && (forall t :: TargetOk(s, t))
    && (forall t, sid :: ReapOk(s, t, sid)) && (forall sid :: NoDup(s.reaps(sid)))
    && (forall j, t :: WaiterOk(s, j, t))
    && NoDup(s.frees)
  }

  lemma WorldStep(w: Wakeup.World, ws: Wakeup.Step)
    requires Wakeup.Inv(w) && Addressed(w, JOIN) && Wakeup.Enabled(w, ws) && Careful(w, ws, JOIN)
    ensures Wakeup.Inv(Wakeup.Apply(w, ws)) && Addressed(Wakeup.Apply(w, ws), JOIN)
  {
    Wakeup.StepKeepsInv(w, ws);
    StepKeepsAddressed(w, ws, JOIN);
  }

  lemma ForeignFrame(w: Wakeup.World, ws: Wakeup.Step, j: Tid, t: Tid)
    requires Wakeup.Enabled(w, ws) && Foreign(w, ws)
    ensures var w' := Wakeup.Apply(w, ws);
            && w'.queue(Queue(t)) == w.queue(Queue(t)) && w'.WaitsOn(j, Queue(t)) == w.WaitsOn(j, Queue(t))
            && w'.home == w.home && (w'.phase(t) == Wakeup.Gone <==> w.phase(t) == Wakeup.Gone)
  {
    Wakeup.ElsewhereFrame(w, ws, Queue(t));
  }

  lemma OtherKeepsInv(s: State, ws: Wakeup.Step)
    requires Inv(s) && Enabled(s, Other(ws))
    ensures Inv(Apply(s, Other(ws)))
  {
    var s' := Apply(s, Other(ws));
    WorldStep(s.w, ws);
    forall t ensures TargetOk(s', t) {
      assert TargetOk(s, t);
      ForeignFrame(s.w, ws, t, t);
    }
    forall t, sid ensures ReapOk(s', t, sid) {
      assert ReapOk(s, t, sid);
      ForeignFrame(s.w, ws, t, t);
    }
    forall j, t ensures WaiterOk(s', j, t) {
      assert WaiterOk(s, j, t);
      ForeignFrame(s.w, ws, j, t);
    }
  }

  lemma ParkJoin(w: Wakeup.World, j: Tid, t: Tid, x: Tid, y: Tid)
    requires Wakeup.Enabled(w, Wakeup.Park(j, Queue(t)))
    ensures var w' := Wakeup.Apply(w, Wakeup.Park(j, Queue(t)));
            && w'.home == w.home && (w'.phase(x) == Wakeup.Gone <==> w.phase(x) == Wakeup.Gone)
            && (w'.WaitsOn(y, Queue(x)) <==> (y == j && x == t) || (y != j && w.WaitsOn(y, Queue(x))))
            && (y in w'.queue(Queue(x)) <==> (y == j && x == t) || y in w.queue(Queue(x)))
  {
  }

  lemma JoinCallKeepsInv(s: State, j: Tid, t: Tid)
    requires Inv(s) && Enabled(s, JoinCall(j, t))
    ensures Inv(Apply(s, JoinCall(j, t)))
  {
    var s' := Apply(s, JoinCall(j, t));
    assert TargetOk(s, t) && t != j;
    if s.Of(t).done {
      KeepsReaps(s, s');
      forall x ensures TargetOk(s', x) { assert TargetOk(s, x); }
      forall y, x ensures WaiterOk(s', y, x) { assert WaiterOk(s, y, x); }
    } else {
      assert ThreadOk(s.w, j, JOIN);
      WorldStep(s.w, Wakeup.Park(j, Queue(t)));
      KeepsReaps(s, s');
      forall x ensures TargetOk(s', x) {
        assert TargetOk(s, x);
        ParkJoin(s.w, j, t, x, j);
      }
      forall y, x ensures WaiterOk(s', y, x) {
        assert WaiterOk(s, y, x);
        ParkJoin(s.w, j, t, x, y);
      }
    }
  }

  /** Steps that leave inboxes and homes alone and do not move anyone between posted and freed. */
  lemma KeepsReaps(s: State, s': State)
    requires forall t, sid :: ReapOk(s, t, sid)
    requires s'.reaps == s.reaps && s'.w.home == s.w.home
    requires forall t :: (s'.Of(t).stage.Posted? && s'.Of(t).life == InDq) == (s.Of(t).stage.Posted? && s.Of(t).life == InDq)
    ensures forall t, sid :: ReapOk(s', t, sid)
  {
    forall t, sid ensures ReapOk(s', t, sid) {
      assert ReapOk(s, t, sid);
    }
  }

  lemma LeaveJoin(w: Wakeup.World, j: Tid, t: Tid, x: Tid, y: Tid)
    requires Wakeup.Inv(w) && Wakeup.Enabled(w, Wakeup.Leave(j)) && w.phase(j) == Wakeup.Awake(Queue(t))
    ensures var w' := Wakeup.Apply(w, Wakeup.Leave(j));
            && w'.home == w.home && (w'.phase(x) == Wakeup.Gone <==> w.phase(x) == Wakeup.Gone)
            && (w'.WaitsOn(y, Queue(x)) <==> y != j && w.WaitsOn(y, Queue(x)))
            && (y in w'.queue(Queue(x)) ==> y in w.queue(Queue(x)))
            && (y != j ==> (y in w'.queue(Queue(x)) <==> y in w.queue(Queue(x))))
  {
  }

  /** A joiner that comes back finds the death published, and reads the final result. */
  lemma ReturnFindsTheDead(s: State, j: Tid, t: Tid)
    requires Inv(s) && s.w.phase(j) == Wakeup.Awake(Queue(t))
    ensures s.Of(t).done && s.Of(t).stage == Joining(j) && s.Of(t).life == InDq
  {
    assert ThreadOk(s.w, j, JOIN) && WaiterOk(s, j, t) && TargetOk(s, t);
  }

  lemma JoinReturnKeepsInv(s: State, j: Tid, t: Tid)
    requires Inv(s) && Enabled(s, JoinReturn(j, t))
    ensures Inv(Apply(s, JoinReturn(j, t)))
  {
    var s' := Apply(s, JoinReturn(j, t));
    ReturnFindsTheDead(s, j, t);
    WorldStep(s.w, Wakeup.Leave(j));
    KeepsReaps(s, s');
    forall x ensures TargetOk(s', x) {
      assert TargetOk(s, x);
      LeaveJoin(s.w, j, t, x, j);
    }
    forall y, x ensures WaiterOk(s', y, x) {
      assert WaiterOk(s, y, x);
      LeaveJoin(s.w, j, t, x, y);
    }
  }

  lemma PostReapKeepsInv(s: State, t: Tid)
    requires Inv(s) && Enabled(s, PostReap(t))
    ensures Inv(Apply(s, PostReap(t)))
  {
    var s' := Apply(s, PostReap(t));
    var sid := s.w.home(t);
    assert TargetOk(s, t) && ReapOk(s, t, sid);
    AppendKeepsNoDup(s.reaps(sid), t);
    forall x ensures TargetOk(s', x) { assert TargetOk(s, x); }
    forall x, r ensures ReapOk(s', x, r) { assert ReapOk(s, x, r); }
    forall y, x ensures WaiterOk(s', y, x) { assert WaiterOk(s, y, x); }
  }

  lemma DeathFrame(w: Wakeup.World, t: Tid, x: Tid, y: Tid)
    requires Wakeup.Inv(w) && Wakeup.Enabled(w, Death(w, t))
    ensures var w' := Wakeup.Apply(w, Death(w, t));
            && w'.home == w.home && (w'.phase(x) == Wakeup.Gone <==> x == t || w.phase(x) == Wakeup.Gone)
            && w.phase(t) != Wakeup.Gone
            && (w'.WaitsOn(y, Queue(x)) <==> y != t && w.WaitsOn(y, Queue(x)))
            && (y in w'.queue(Queue(x)) ==> y in w.queue(Queue(x)))
            && (y != t ==> (y in w'.queue(Queue(x)) <==> y in w.queue(Queue(x))))
  {
  }

  lemma DieKeepsInv(s: State, t: Tid, value: int)
    requires Inv(s) && Enabled(s, Die(t, value))
    ensures Inv(Apply(s, Die(t, value)))
  {
    var s' := Apply(s, Die(t, value));
    WorldStep(s.w, Death(s.w, t));
    DeathFrame(s.w, t, t, t);
    assert TargetOk(s, t) && s.Of(t).life == Alive;
    KeepsReaps(s, s');
    forall x ensures TargetOk(s', x) {
      assert TargetOk(s, x);
      DeathFrame(s.w, t, x, t);
    }
    forall y, x ensures WaiterOk(s', y, x) {
      assert WaiterOk(s, y, x);
      DeathFrame(s.w, t, x, y);
    }
  }

  lemma ShiftAll(w: Wakeup.World, t: Tid, x: Tid, y: Tid)
    requires w.posts(w.home(t)) == {}
    ensures var w' := Wakeup.Apply(w, Wakeup.Shift(w.home(t), Queue(t), |w.queue(Queue(t))|));
            && w'.home == w.home && w'.phase == w.phase
            && (y in w'.queue(Queue(x)) <==> x != t && y in w.queue(Queue(x)))
  {
  }

  lemma PublishKeepsInv(s: State, t: Tid)
    requires Inv(s) && Enabled(s, Publish(t))
    ensures Inv(Apply(s, Publish(t)))
  {
    var s' := Apply(s, Publish(t));
    WorldStep(s.w, Wakeup.Shift(s.w.home(t), Queue(t), |s.w.queue(Queue(t))|));
    ShiftAll(s.w, t, t, t);
    assert TargetOk(s, t);
    KeepsReaps(s, s');
    forall x ensures TargetOk(s', x) { assert TargetOk(s, x); }
    forall y, x ensures WaiterOk(s', y, x) {
      assert WaiterOk(s, y, x);
      ShiftAll(s.w, t, x, y);
    }
  }

  /** A REAP that is applied finds its thread dead, read by its joiner, and in the dead queue. */
  lemma ReapFindsTheDead(s: State, sid: Sid)
    requires Inv(s) && s.reaps(sid) != []
    ensures var t := s.reaps(sid)[0];
            s.w.home(t) == sid && s.Of(t).life == InDq && s.Of(t).stage.Posted? && t !in s.frees
  {
    var t := s.reaps(sid)[0];
    assert ReapOk(s, t, sid) && TargetOk(s, t);
  }

  lemma DrainReapKeepsInv(s: State, sid: Sid)
    requires Inv(s) && Enabled(s, DrainReap(sid))
    ensures Inv(Apply(s, DrainReap(sid)))
  {
    var s', q := Apply(s, DrainReap(sid)), s.reaps(sid);
    var t := q[0];
    ReapFindsTheDead(s, sid);
    AppendKeepsNoDup(s.frees, t);
    assert q == [t] + q[1..];
    forall x ensures TargetOk(s', x) { assert TargetOk(s, x); }
    forall x, r ensures ReapOk(s', x, r) {
      assert ReapOk(s, x, r);
      assert x in q[1..] <==> x in q && x != t;
    }
    forall y, x ensures WaiterOk(s', y, x) { assert WaiterOk(s, y, x); }
  }

  lemma StepKeepsInv(s: State, step: Step)
    requires Inv(s) && Enabled(s, step)
    ensures Inv(Apply(s, step))
  {
    match step
    case Other(ws) => OtherKeepsInv(s, ws);
    case JoinCall(j, t) => JoinCallKeepsInv(s, j, t);
    case JoinReturn(j, t) => JoinReturnKeepsInv(s, j, t);
    case PostReap(t) => PostReapKeepsInv(s, t);
    case Die(t, value) => DieKeepsInv(s, t, value);
    case Publish(t) => PublishKeepsInv(s, t);
    case DrainReap(sid) => DrainReapKeepsInv(s, sid);
  }

  ghost predicate Next(s: State, s': State) {
    exists step :: Enabled(s, step) && s' == Apply(s, step)
  }

  ghost predicate IsRun(run: seq<State>) {
    run != [] && Init(run[0]) && forall i :: 0 <= i < |run| - 1 ==> Next(run[i], run[i + 1])
  }

  lemma InitIsGood(s: State)
    requires Init(s)
    ensures Inv(s)
  {
    StartIsAddressed(s.w, JOIN);
    forall t ensures TargetOk(s, t) {
      assert Untouched(s, t);
    }
    forall t, sid ensures ReapOk(s, t, sid) {
      assert Untouched(s, t) && NoReaps(s, sid);
    }
    forall sid ensures NoDup(s.reaps(sid)) {
      assert NoReaps(s, sid);
    }
  }

  lemma {:induction false} RunsKeepInv(run: seq<State>, i: nat)
    requires IsRun(run) && i < |run|
    ensures Inv(run[i])
  {
    if i == 0 {
      InitIsGood(run[0]);
    } else {
      RunsKeepInv(run, i - 1);
      assert Next(run[i - 1], run[i]);
      var step :| Enabled(run[i - 1], step) && run[i] == Apply(run[i - 1], step);
      StepKeepsInv(run[i - 1], step);
    }
  }

  // What the runs guarantee

  predicate HasResult(x: Target) { x.stage.Got? || x.stage.Posted? }

  lemma StepFixesResult(s: State, step: Step, t: Tid)
    requires Inv(s) && Enabled(s, step) && s.Of(t).life != Alive
    ensures Apply(s, step).Of(t).arg == s.Of(t).arg && Apply(s, step).Of(t).life != Alive
  {
    assert TargetOk(s, t);
    if step.Die? {
      DeathFrame(s.w, step.t, step.t, step.t);
      assert TargetOk(s, step.t);
    }
  }

  lemma NextFixesResult(s: State, s': State, t: Tid)
    requires Inv(s) && Next(s, s') && s.Of(t).life != Alive
    ensures s'.Of(t).arg == s.Of(t).arg && s'.Of(t).life != Alive
  {
    var step :| Enabled(s, step) && s' == Apply(s, step);
    StepFixesResult(s, step, t);
  }

  lemma RunStep(run: seq<State>, k: nat)
    requires IsRun(run) && k + 1 < |run|
    ensures Inv(run[k]) && Next(run[k], run[k + 1])
  {
    RunsKeepInv(run, k);
  }

  lemma RunFixesResult(run: seq<State>, k: nat, t: Tid)
    requires IsRun(run) && k + 1 < |run| && run[k].Of(t).life != Alive
    ensures run[k + 1].Of(t).arg == run[k].Of(t).arg && run[k + 1].Of(t).life != Alive
  {
    RunStep(run, k);
    NextFixesResult(run[k], run[k + 1], t);
  }

  /** From a dead state on, the result stays. */
  ghost predicate Steady(run: seq<State>, t: Tid) {
    forall k :: 0 <= k < |run| - 1 && run[k].Of(t).life != Alive ==>
      run[k + 1].Of(t).arg == run[k].Of(t).arg && run[k + 1].Of(t).life != Alive
  }

  lemma RunsAreSteady(run: seq<State>, t: Tid)
    requires IsRun(run)
    ensures Steady(run, t)
  {
    forall k | 0 <= k < |run| - 1 && run[k].Of(t).life != Alive
      ensures run[k + 1].Of(t).arg == run[k].Of(t).arg && run[k + 1].Of(t).life != Alive
    {
      RunFixesResult(run, k, t);
    }
  }

  lemma {:induction false} SteadyStays(run: seq<State>, i: nat, k: nat, t: Tid)
    requires Steady(run, t) && i <= k < |run| && run[i].Of(t).life != Alive
    ensures run[k].Of(t).arg == run[i].Of(t).arg && run[k].Of(t).life != Alive
    decreases k
  {
    if i < k {
      SteadyStays(run, i, k - 1, t);
    }
  }

  /** The result of a dead thread never changes again. */
  lemma ResultIsFinal(run: seq<State>, i: nat, k: nat, t: Tid)
    requires IsRun(run) && i <= k < |run| && run[i].Of(t).life != Alive
    ensures run[k].Of(t).arg == run[i].Of(t).arg && run[k].Of(t).life != Alive
  {
    RunsAreSteady(run, t);
    SteadyStays(run, i, k, t);
  }

  /** A joiner that has a result has the final one, and has it only after the death was published. */
  lemma JoinerGetsTheFinalResult(run: seq<State>, i: nat, k: nat, t: Tid)
    requires IsRun(run) && i <= k < |run| && HasResult(run[i].Of(t))
    ensures run[i].Of(t).done && run[i].w.phase(t) == Wakeup.Gone
    ensures run[i].Of(t).stage.value == run[k].Of(t).arg
  {
    RunsKeepInv(run, i);
    assert TargetOk(run[i], t);
    ResultIsFinal(run, i, k, t);
  }

  // The result goes to the thread that asked for it

  lemma StepKeepsJoiner(s: State, step: Step, t: Tid)
    requires Inv(s) && Enabled(s, step) && s.Of(t).stage != NoJoiner
    ensures var s' := Apply(s, step); s'.Of(t).stage != NoJoiner && s'.Of(t).stage.j == s.Of(t).stage.j
  {
    if step.JoinReturn? {
      ReturnFindsTheDead(s, step.j, step.t);
    }
  }

  /** At step `c` of the run, `j` calls pth_join for `t`. */
  ghost predicate JoinsAt(run: seq<State>, c: int, j: Tid, t: Tid) {
    0 <= c < |run| - 1 && Enabled(run[c], JoinCall(j, t)) && run[c + 1] == Apply(run[c], JoinCall(j, t))
  }

  lemma CallIsRecorded(s: State, j: Tid, t: Tid)
    requires Enabled(s, JoinCall(j, t))
    ensures var x := Apply(s, JoinCall(j, t)).Of(t); x.stage != NoJoiner && x.stage.j == j
  {
  }

  lemma NextKeepsJoiner(s: State, s': State, t: Tid)
    requires Inv(s) && Next(s, s') && s.Of(t).stage != NoJoiner
    ensures s'.Of(t).stage != NoJoiner && s'.Of(t).stage.j == s.Of(t).stage.j
  {
    var step :| Enabled(s, step) && s' == Apply(s, step);
    StepKeepsJoiner(s, step, t);
  }

  /** A joiner stays the joiner. */
  ghost predicate Faithful(run: seq<State>, t: Tid) {
    forall k :: 0 <= k < |run| - 1 && run[k].Of(t).stage != NoJoiner ==>
      run[k + 1].Of(t).stage != NoJoiner && run[k + 1].Of(t).stage.j == run[k].Of(t).stage.j
  }

  lemma RunsAreFaithful(run: seq<State>, t: Tid)
    requires IsRun(run)
    ensures Faithful(run, t)
  {
    forall k | 0 <= k < |run| - 1 && run[k].Of(t).stage != NoJoiner
      ensures run[k + 1].Of(t).stage != NoJoiner && run[k + 1].Of(t).stage.j == run[k].Of(t).stage.j
    {
      RunStep(run, k);
      NextKeepsJoiner(run[k], run[k + 1], t);
    }
  }

  lemma {:induction false} FaithfulStays(run: seq<State>, i: nat, k: nat, t: Tid)
    requires Faithful(run, t) && i <= k < |run| && run[i].Of(t).stage != NoJoiner
    ensures run[k].Of(t).stage != NoJoiner && run[k].Of(t).stage.j == run[i].Of(t).stage.j
    decreases k
  {
    if i < k {
      FaithfulStays(run, i, k - 1, t);
    }
  }

  /** From its call on, the joiner of a thread is the caller, and no one else gets the result or asks for the block to be freed. */
  lemma JoinerIsTheCaller(run: seq<State>, c: nat, i: nat, j: Tid, t: Tid)
    requires IsRun(run) && JoinsAt(run, c, j, t) && c < i < |run|
    ensures run[i].Of(t).stage != NoJoiner && run[i].Of(t).stage.j == j
  {
    CallIsRecorded(run[c], j, t);
    RunsAreFaithful(run, t);
    FaithfulStays(run, c + 1, i, t);
  }

  // The result is the value the thread died with

  /** At step `d` of the run, `t` dies with `value`. */
  ghost predicate DiesAt(run: seq<State>, d: int, t: Tid, value: int) {
    0 <= d < |run| - 1 && Enabled(run[d], Die(t, value)) && run[d + 1] == Apply(run[d], Die(t, value))
  }

  lemma DeathStores(s: State, t: Tid, value: int)
    requires Enabled(s, Die(t, value))
    ensures var x := Apply(s, Die(t, value)).Of(t); x.arg == value && x.life == InDq
  {
  }

  lemma ResultIsRead(s: State, t: Tid)
    requires Inv(s) && HasResult(s.Of(t))
    ensures s.Of(t).stage.value == s.Of(t).arg && s.Of(t).life != Alive
  {
    assert TargetOk(s, t);
  }

  /** Whoever has a result after a thread died has the value it died with. */
  lemma JoinerGetsTheValue(run: seq<State>, d: nat, i: nat, t: Tid, value: int)
    requires IsRun(run) && DiesAt(run, d, t, value) && d < i < |run|
    ensures run[i].Of(t).arg == value
    ensures HasResult(run[i].Of(t)) ==> run[i].Of(t).stage.value == value
  {
    DeathStores(run[d], t, value);
    ResultIsFinal(run, d + 1, i, t);
    if HasResult(run[i].Of(t)) {
      RunsKeepInv(run, i);
      ResultIsRead(run[i], t);
    }
  }

  lemma BornAlive(s: State, t: Tid)
    requires Init(s)
    ensures s.Of(t).life == Alive
  {
    assert Untouched(s, t);
  }

  /** A thread that is not alive any more died at some step, of itself or, with that value, cancelled. */
  lemma {:induction false} DeathHappened(run: seq<State>, i: nat, t: Tid) returns (d: nat, value: int)
    requires IsRun(run) && i < |run| && run[i].Of(t).life != Alive
    ensures d < i && DiesAt(run, d, t, value) && (!run[d].w.Runs(t) ==> value == CANCELED)
  {
    BornAlive(run[0], t);
    if run[i - 1].Of(t).life != Alive {
      d, value := DeathHappened(run, i - 1, t);
    } else {
      assert Next(run[i - 1], run[i]);
      var step :| Enabled(run[i - 1], step) && run[i] == Apply(run[i - 1], step);
      RunsKeepInv(run, i - 1);
      assert TargetOk(run[i - 1], t);
      LivesOn(run[i - 1], step, t);
      d, value := i - 1, step.value;
    }
  }

  /** Only its own death ends a thread's life. */
  lemma LivesOn(s: State, step: Step, t: Tid)
    requires Inv(s) && Enabled(s, step) && s.Of(t).life == Alive && Apply(s, step).Of(t).life != Alive
    ensures step.Die? && step.t == t
  {
    if step.DrainReap? {
      ReapFindsTheDead(s, step.s);
    }
  }

  /**
   The value a joiner gets is the one its target died with: what it passed to pth_exit, or
   PTH_CANCELED if it was cancelled while it did not run.
   */
  lemma JoinerGetsWhatItDiedWith(run: seq<State>, i: nat, t: Tid) returns (d: nat, value: int)
    requires IsRun(run) && i < |run| && HasResult(run[i].Of(t))
    ensures d < i && DiesAt(run, d, t, value) && run[i].Of(t).stage.value == value
    ensures !run[d].w.Runs(t) ==> run[i].Of(t).stage.value == CANCELED
  {
    RunsKeepInv(run, i);
    ResultIsRead(run[i], t);
    d, value := DeathHappened(run, i, t);
    JoinerGetsTheValue(run, d, i, t, value);
  }

  /** A control block is freed at most once, by its home scheduler, after its joiner has the result. */
  lemma FreedOnceAfterTheJoin(run: seq<State>, i: nat, t: Tid)
    requires IsRun(run) && i < |run|
    ensures NoDup(run[i].frees)
    ensures t in run[i].frees ==> run[i].Of(t).life == Freed && run[i].Of(t).stage.Posted?
    ensures forall sid :: run[i].reaps(sid) != [] ==>
              run[i].Of(run[i].reaps(sid)[0]).life == InDq && run[i].w.home(run[i].reaps(sid)[0]) == sid
  {
    RunsKeepInv(run, i);
    assert TargetOk(run[i], t);
    forall sid | run[i].reaps(sid) != []
      ensures run[i].Of(run[i].reaps(sid)[0]).life == InDq && run[i].w.home(run[i].reaps(sid)[0]) == sid
    {
      ReapFindsTheDead(run[i], sid);
    }
  }
}
