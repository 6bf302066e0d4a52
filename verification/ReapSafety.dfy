/**
 Joining and the schedulers' queues, put together. `RemoteJoin` says when a joiner asks for a dead
 thread's control block to be freed; `ThreadPartition` says what becomes of the five queues and takes
 for granted that such a REAP is sent for a thread in the dead queue only. Here every death is the
 scheduler step that moves the thread there, every REAP is the joiner's, and what was taken for
 granted is proved.
 */
module ReapSafety {
  import opened Basics
  import opened PriorityOrder
  import opened SchedulerOps
  import RJ = RemoteJoin
  import TP = ThreadPartition

  /** `joined` says which threads other schedulers join; those are the ones that nobody aborts. */
  datatype State = State(j: RJ.State, p: TP.State, joined: Tid -> bool)
  {
    function Home(t: Tid): Sid { j.w.home(t) }
  }

  datatype Step =
    | Join(js: RJ.Step)                           // the join protocol, away from the queues
    | Sched(ps: TP.Step)                          // the schedulers, away from the join protocol
    | Death(t: Tid, value: int, ps: TP.Step)      // a thread dies in a scheduler step
    | Post(t: Tid)                                // a joiner sends its REAP
    | Drain(s: Sid)                               // a REAP is applied

  /** What the scheduler asks of its callers, REAP apart. */
  ghost predicate Asked(s: State, op: Op) {
    !op.Reap? && (op.Adopt? ==> TP.Unborn(s.p, op.t)) && (op.Abort? ==> !s.joined(op.t))
  }

  ghost predicate SchedEnabled(s: State, ps: TP.Step) {
    match ps
    case Local(sid, op) => OpEnabled(s.p.g(sid), op) && Asked(s, op)
    case Send(sid, op) => TP.IsMessage(op) && Asked(s, op)
    case Deliver(sid) => s.p.inbox(sid) != [] && !s.p.inbox(sid)[0].Reap? && s.p.g(sid).current == None
  }

  /** The operation of a step on scheduler `sid`, if it has one */
  ghost predicate Performs(p: TP.State, ps: TP.Step, sid: Sid, op: Op) {
    ps == TP.Local(sid, op) || (ps == TP.Deliver(sid) && p.inbox(sid) != [] && p.inbox(sid)[0] == op)
  }

  /** A joinable thread exits while it runs, or is cancelled asynchronously in one of the live queues. */
  predicate Kills(g: Gs, op: Op, t: Tid) {
    g.tcb(t).joinable &&
    match op
    case AfterRun(how) => how == Exited && g.current == Some(t)
    case Cancel(u) =>
      && u == t && g.tcb(t).cancelEnable && g.tcb(t).cancelAsync
      && g.StateOf(t) != DEAD && Contains(LiveQueue(g, g.StateOf(t)), t)
    case _ => false
  }

  ghost predicate DiesIn(s: State, ps: TP.Step, t: Tid) {
    exists op :: Performs(s.p, ps, s.Home(t), op) && Kills(s.p.g(s.Home(t)), op, t)
  }

  ghost predicate Enabled(s: State, step: Step) {
    match step
    case Join(js) =>
      && RJ.Enabled(s.j, js) && !js.Die? && !js.PostReap? && !js.DrainReap?
      && (js.JoinCall? ==> s.joined(js.t))
    case Sched(ps) => SchedEnabled(s, ps)
    case Death(t, value, ps) => RJ.Enabled(s.j, RJ.Die(t, value)) && SchedEnabled(s, ps) && DiesIn(s, ps, t)
    case Post(t) => RJ.Enabled(s.j, RJ.PostReap(t))
    case Drain(sid) =>
      && RJ.Enabled(s.j, RJ.DrainReap(sid))
      && s.p.inbox(sid) != [] && s.p.inbox(sid)[0].Reap? && s.p.g(sid).current == None
  }

  ghost function SchedStep(s: State, step: Step): TP.Step
    requires !step.Join?
  {
    match step
    case Sched(ps) => ps
    case Death(t, value, ps) => ps
    case Post(t) => TP.Send(s.Home(t), Reap(t))
    case Drain(sid) => TP.Deliver(sid)
  }

  ghost function JoinStep(step: Step): RJ.Step
    requires !step.Sched?
  {
    match step
    case Join(js) => js
    case Death(t, value, ps) => RJ.Die(t, value)
    case Post(t) => RJ.PostReap(t)
    case Drain(sid) => RJ.DrainReap(sid)
  }

  // The invariant

  /** The threads of the REAP messages in an inbox, in order */
  function Reaps(q: seq<Op>): seq<Tid> {
    if q == [] then [] else One(q[0]) + Reaps(q[1..])
  }

  function One(op: Op): seq<Tid> { if op.Reap? then [op.t] else [] }

  lemma {:induction false} ReapsAppend(q: seq<Op>, op: Op)
    ensures Reaps(q + [op]) == Reaps(q) + One(op)
  {
    if q == [] {
      assert q + [op] == [op] && [op][1..] == [] && Reaps([op]) == One(op) + [];
    } else {
      calc {
        Reaps(q + [op]);
        { assert (q + [op])[1..] == q[1..] + [op] && (q + [op])[0] == q[0]; }
        One(q[0]) + Reaps(q[1..] + [op]);
        { ReapsAppend(q[1..], op); }
        One(q[0]) + (Reaps(q[1..]) + One(op));
        (One(q[0]) + Reaps(q[1..])) + One(op);
        Reaps(q) + One(op);
      }
    }
  }

  lemma {:induction false} ReapsHas(q: seq<Op>, t: Tid)
    ensures Reap(t) in q <==> t in Reaps(q)
  {
    if q != [] {
      ReapsHas(q[1..], t);
      assert q == [q[0]] + q[1..];
    }
  }

  /** A dead thread that may be joined is in the dead queue of its home until it is freed. */
  ghost predicate DeadOk(s: State, t: Tid) {
    && (s.joined(t) && s.j.Of(t).life == RJ.InDq ==> Contains(s.p.g(s.Home(t)).dq, t))
    && (s.j.Of(t).stage != RJ.NoJoiner ==> s.joined(t))
  }

  ghost predicate InboxOk(s: State, sid: Sid) {
    Reaps(s.p.inbox(sid)) == s.j.reaps(sid) && forall t :: Abort(t) in s.p.inbox(sid) ==> !s.joined(t)
  }

  ghost predicate Inv(s: State) {
    && RJ.Inv(s.j) && TP.Inv(s.p)
    && (forall t :: DeadOk(s, t)) && (forall sid :: InboxOk(s, sid))
  }

  // What the schedulers take for granted holds

  lemma NoReapFor(s: State, t: Tid, sid: Sid)
    requires Inv(s) && !s.j.Of(t).stage.Posted?
    ensures !TP.ReapPending(s.p.inbox(sid), t)
  {
    assert InboxOk(s, sid) && RJ.ReapOk(s.j, t, sid);
    ReapsHas(s.p.inbox(sid), t);
  }

  lemma AskedIsAllowed(s: State, sid: Sid, op: Op)
    requires Inv(s) && Asked(s, op)
    ensures TP.Allowed(s.p, sid, op)
  {
    if op.Abort? {
      assert DeadOk(s, op.t);
      NoReapFor(s, op.t, sid);
    }
  }

  /** A joiner's REAP is for a thread in the dead queue, is the only one, and meets no abort. */
  lemma PostIsAllowed(s: State, t: Tid)
    requires Inv(s) && RJ.Enabled(s.j, RJ.PostReap(t))
    ensures TP.Enabled(s.p, TP.Send(s.Home(t), Reap(t)))
  {
    assert RJ.TargetOk(s.j, t) && DeadOk(s, t) && InboxOk(s, s.Home(t));
    NoReapFor(s, t, s.Home(t));
  }

  /** Every scheduler step of the whole is one that `ThreadPartition` allows. */
  lemma SchedulerStepsAreAllowed(s: State, step: Step)
    requires Inv(s) && Enabled(s, step) && !step.Join?
    ensures TP.Enabled(s.p, SchedStep(s, step))
  {
    match step
    case Sched(ps) => RawIsEnabled(s, ps);
    case Death(t, value, ps) => RawIsEnabled(s, ps);
    case Post(t) => PostIsAllowed(s, t);
    case Drain(sid) =>
  }

  lemma RawIsEnabled(s: State, ps: TP.Step)
    requires Inv(s) && SchedEnabled(s, ps)
    ensures TP.Enabled(s.p, ps)
  {
    match ps
    case Local(sid, op) => AskedIsAllowed(s, sid, op);
    case Send(sid, op) => AskedIsAllowed(s, sid, op);
    case Deliver(sid) =>
  }

  // Every step keeps the invariant

  ghost predicate Playable(s: State, step: Step) {
    && (!step.Join? ==> TP.Playable(s.p, SchedStep(s, step)))
    && (!step.Sched? ==> RJ.Enabled(s.j, JoinStep(step)))
  }

  ghost function Apply(s: State, step: Step): State
    requires Playable(s, step)
  {
    s.(p := if step.Join? then s.p else TP.Apply(s.p, SchedStep(s, step)),
       j := if step.Sched? then s.j else RJ.Apply(s.j, JoinStep(step)))
  }

  /** No join step changes a thread's home, and only a death and a drained REAP change its life. */
  lemma JoinFrame(j: RJ.State, js: RJ.Step, t: Tid)
    requires RJ.Inv(j) && RJ.Enabled(j, js)
    ensures var j' := RJ.Apply(j, js);
            && j'.w.home == j.w.home
            && (j'.Of(t).life == j.Of(t).life || js.DrainReap? || (js.Die? && js.t == t && j'.Of(t).life == RJ.InDq))
            && (js.DrainReap? ==> j'.Of(t).life == if t == j.reaps(js.s)[0] then RJ.Freed else j.Of(t).life)
            && (j'.Of(t).stage != RJ.NoJoiner ==> j.Of(t).stage != RJ.NoJoiner || (js.JoinCall? && js.t == t) || (js.JoinReturn? && js.t == t))
            && (forall sid :: j'.reaps(sid) ==
                  if js.PostReap? && sid == j.w.home(js.t) then j.reaps(sid) + [js.t]
                  else if js == RJ.DrainReap(sid) then j.reaps(sid)[1..] else j.reaps(sid))
  {
  }

  lemma DeathReachesTheDeadQueue(g: Gs, op: Op, t: Tid)
    requires Sound(g) && OpEnabled(g, op) && Kills(g, op, t)
    ensures Contains(SchedulerOps.Apply(g, op).dq, t)
  {
    CountInsert(g.dq, PRIO_STD, t, t);
    CountContains(Insert(g.dq, PRIO_STD, t), t);
    if op.Cancel? {
      QueuedCounts(g, t);
      assert Exists(g, t);
    }
  }

  /** The operation that a delivered message performs */
  lemma DeliverPerforms(s: State, sid: Sid)
    requires Inv(s) && s.p.inbox(sid) != [] && !s.p.inbox(sid)[0].Reap?
    ensures var op := s.p.inbox(sid)[0];
            && OpEnabled(s.p.g(sid), op) && (op.Abort? ==> !s.joined(op.t))
            && TP.ApplyMessage(s.p.g(sid), op) == SchedulerOps.Apply(s.p.g(sid), op)
  {
    assert TP.SchedulerOk(s.p, sid) && InboxOk(s, sid) && s.p.inbox(sid)[0] in s.p.inbox(sid);
  }

  lemma OpKeepsDead(s: State, sid: Sid, op: Op, t: Tid)
    requires Inv(s) && OpEnabled(s.p.g(sid), op) && op != Reap(t) && op != Abort(t) && Contains(s.p.g(sid).dq, t)
    ensures Contains(SchedulerOps.Apply(s.p.g(sid), op).dq, t)
  {
    assert TP.SchedulerOk(s.p, sid);
    CountContains(s.p.g(sid).dq, t);
    TP.OthersKeepDq(s.p.g(sid), op, t);
    CountContains(SchedulerOps.Apply(s.p.g(sid), op).dq, t);
  }

  lemma SchedKeepsDead(s: State, ps: TP.Step, t: Tid)
    requires Inv(s) && SchedEnabled(s, ps) && s.joined(t) && Contains(s.p.g(s.Home(t)).dq, t)
    ensures TP.Playable(s.p, ps) && Contains(TP.Apply(s.p, ps).g(s.Home(t)).dq, t)
  {
    match ps
    case Local(sid, op) =>
      if sid == s.Home(t) {
        OpKeepsDead(s, sid, op, t);
      }
    case Send(sid, op) =>
    case Deliver(sid) =>
      if sid == s.Home(t) {
        DeliverPerforms(s, sid);
        OpKeepsDead(s, sid, s.p.inbox(sid)[0], t);
      }
  }

  lemma AppendNoReap(q: seq<Op>, op: Op)
    requires !op.Reap?
    ensures Reaps(q + [op]) == Reaps(q)
  {
    ReapsAppend(q, op);
    assert Reaps(q) + [] == Reaps(q);
  }

  lemma TailNoReap(q: seq<Op>)
    requires q != [] && !q[0].Reap?
    ensures Reaps(q[1..]) == Reaps(q) && forall op :: op in q[1..] ==> op in q
  {
    assert Reaps(q) == [] + Reaps(q[1..]);
  }

  lemma SchedKeepsInbox(s: State, ps: TP.Step, sid: Sid)
    requires Inv(s) && SchedEnabled(s, ps)
    ensures TP.Playable(s.p, ps) && Reaps(TP.Apply(s.p, ps).inbox(sid)) == s.j.reaps(sid)
    ensures forall t :: Abort(t) in TP.Apply(s.p, ps).inbox(sid) ==> !s.joined(t)
  {
    assert InboxOk(s, sid);
    var q, q' := s.p.inbox(sid), TP.Apply(s.p, ps).inbox(sid);
    if ps.Send? && ps.s == sid {
      assert q' == q + [ps.op];
      AppendNoReap(q, ps.op);
    } else if ps.Deliver? && ps.s == sid {
      assert q' == q[1..];
      TailNoReap(q);
    } else {
      assert q' == q;
    }
  }

  lemma SchedKeepsInv(s: State, ps: TP.Step)
    requires Inv(s) && SchedEnabled(s, ps)
    ensures Playable(s, Sched(ps)) && Inv(Apply(s, Sched(ps)))
  {
    var s' := Apply(s, Sched(ps));
    RawIsEnabled(s, ps);
    TP.StepKeepsInv(s.p, ps);
    forall t ensures DeadOk(s', t) {
      assert DeadOk(s, t);
      if s.joined(t) && Contains(s.p.g(s.Home(t)).dq, t) {
        SchedKeepsDead(s, ps, t);
      }
    }
    forall sid ensures InboxOk(s', sid) {
      SchedKeepsInbox(s, ps, sid);
    }
  }

  lemma JoinKeepsInv(s: State, js: RJ.Step)
    requires Inv(s) && Enabled(s, Join(js))
    ensures Inv(Apply(s, Join(js)))
  {
    var s' := Apply(s, Join(js));
    RJ.StepKeepsInv(s.j, js);
    forall t ensures DeadOk(s', t) {
      assert DeadOk(s, t);
      JoinFrame(s.j, js, t);
      if js.JoinReturn? {
        RJ.ReturnFindsTheDead(s.j, js.j, js.t);
        assert DeadOk(s, js.t);
      }
    }
    forall sid ensures InboxOk(s', sid) {
      assert InboxOk(s, sid);
      JoinFrame(s.j, js, 0);
    }
  }

  lemma DeathKeepsInv(s: State, t: Tid, value: int, ps: TP.Step)
    requires Inv(s) && Enabled(s, Death(t, value, ps))
    ensures Playable(s, Death(t, value, ps)) && Inv(Apply(s, Death(t, value, ps)))
  {
    var s', sid := Apply(s, Death(t, value, ps)), s.Home(t);
    RJ.StepKeepsInv(s.j, RJ.Die(t, value));
    RawIsEnabled(s, ps);
    TP.StepKeepsInv(s.p, ps);
    var op :| Performs(s.p, ps, sid, op) && Kills(s.p.g(sid), op, t);
    assert TP.SchedulerOk(s.p, sid);
    if ps.Deliver? {
      DeliverPerforms(s, sid);
    }
    DeathReachesTheDeadQueue(s.p.g(sid), op, t);
    forall u ensures DeadOk(s', u) {
      assert DeadOk(s, u);
      JoinFrame(s.j, RJ.Die(t, value), u);
      if u != t && s.joined(u) && Contains(s.p.g(s.Home(u)).dq, u) {
        SchedKeepsDead(s, ps, u);
      }
    }
    forall r ensures InboxOk(s', r) {
      SchedKeepsInbox(s, ps, r);
      JoinFrame(s.j, RJ.Die(t, value), t);
    }
  }

  lemma PostKeepsDead(s: State, t: Tid, u: Tid)
    requires Inv(s) && Enabled(s, Post(t))
    ensures Playable(s, Post(t)) && DeadOk(Apply(s, Post(t)), u)
  {
    assert DeadOk(s, u) && DeadOk(s, t);
    JoinFrame(s.j, RJ.PostReap(t), u);
  }

  lemma AppendReap(q: seq<Op>, t: Tid)
    ensures Reaps(q + [Reap(t)]) == Reaps(q) + [t] && forall u :: Abort(u) in q + [Reap(t)] ==> Abort(u) in q
  {
    ReapsAppend(q, Reap(t));
  }

  lemma PostKeepsInbox(s: State, t: Tid, r: Sid)
    requires Inv(s) && Enabled(s, Post(t))
    ensures Playable(s, Post(t)) && InboxOk(Apply(s, Post(t)), r)
  {
    var s' := Apply(s, Post(t));
    assert InboxOk(s, r);
    JoinFrame(s.j, RJ.PostReap(t), t);
    if r == s.Home(t) {
      assert s'.p.inbox(r) == s.p.inbox(r) + [Reap(t)];
      AppendReap(s.p.inbox(r), t);
    } else {
      assert s'.p.inbox(r) == s.p.inbox(r);
    }
  }

  lemma PostKeepsInv(s: State, t: Tid)
    requires Inv(s) && Enabled(s, Post(t))
    ensures Playable(s, Post(t)) && Inv(Apply(s, Post(t)))
  {
    PostIsAllowed(s, t);
    TP.StepKeepsInv(s.p, TP.Send(s.Home(t), Reap(t)));
    RJ.StepKeepsInv(s.j, RJ.PostReap(t));
    forall u ensures DeadOk(Apply(s, Post(t)), u) {
      PostKeepsDead(s, t, u);
    }
    forall r ensures InboxOk(Apply(s, Post(t)), r) {
      PostKeepsInbox(s, t, r);
    }
  }

  /** The REAP at the front of an inbox is the oldest of the joiners', and its thread is in the dead queue. */
  lemma FrontReap(s: State, sid: Sid)
    requires Inv(s) && s.p.inbox(sid) != [] && s.p.inbox(sid)[0].Reap?
    ensures var t := s.p.inbox(sid)[0].t;
            && s.j.reaps(sid) == [t] + Reaps(s.p.inbox(sid)[1..])
            && s.Home(t) == sid && s.j.Of(t).life == RJ.InDq && s.j.Of(t).stage.Posted? && Contains(s.p.g(sid).dq, t)
  {
    assert InboxOk(s, sid);
    var t := s.p.inbox(sid)[0].t;
    assert s.j.reaps(sid)[0] == t;
    RJ.ReapFindsTheDead(s.j, sid);
    assert DeadOk(s, t);
  }

  lemma DrainKeepsDead(s: State, sid: Sid, u: Tid)
    requires Inv(s) && Enabled(s, Drain(sid))
    ensures Playable(s, Drain(sid)) && DeadOk(Apply(s, Drain(sid)), u)
  {
    var t := s.p.inbox(sid)[0].t;
    FrontReap(s, sid);
    assert DeadOk(s, u);
    JoinFrame(s.j, RJ.DrainReap(sid), u);
    if u != t && s.Home(u) == sid && Contains(s.p.g(sid).dq, u) {
      OpKeepsDead(s, sid, Reap(t), u);
    }
  }

  lemma DrainKeepsInbox(s: State, sid: Sid, r: Sid)
    requires Inv(s) && Enabled(s, Drain(sid))
    ensures Playable(s, Drain(sid)) && InboxOk(Apply(s, Drain(sid)), r)
  {
    var s', q := Apply(s, Drain(sid)), s.p.inbox(r);
    assert InboxOk(s, r);
    JoinFrame(s.j, RJ.DrainReap(sid), 0);
    if r == sid {
      FrontReap(s, sid);
      assert s'.p.inbox(r) == q[1..] && s'.j.reaps(r) == Reaps(q[1..]);
      assert forall op :: op in q[1..] ==> op in q;
    } else {
      assert s'.p.inbox(r) == q && s'.j.reaps(r) == s.j.reaps(r);
    }
  }

  lemma DrainKeepsInv(s: State, sid: Sid)
    requires Inv(s) && Enabled(s, Drain(sid))
    ensures Playable(s, Drain(sid)) && Inv(Apply(s, Drain(sid)))
  {
    TP.StepKeepsInv(s.p, TP.Deliver(sid));
    RJ.StepKeepsInv(s.j, RJ.DrainReap(sid));
    forall u ensures DeadOk(Apply(s, Drain(sid)), u) {
      DrainKeepsDead(s, sid, u);
    }
    forall r ensures InboxOk(Apply(s, Drain(sid)), r) {
      DrainKeepsInbox(s, sid, r);
    }
  }

  lemma StepKeepsInv(s: State, step: Step)
    requires Inv(s) && Enabled(s, step)
    ensures Playable(s, step) && Inv(Apply(s, step))
  {
    match step
    case Join(js) => JoinKeepsInv(s, js);
    case Sched(ps) => SchedKeepsInv(s, ps);
    case Death(t, value, ps) => DeathKeepsInv(s, t, value, ps);
    case Post(t) => PostKeepsInv(s, t);
    case Drain(sid) => DrainKeepsInv(s, sid);
  }

  // Runs

  ghost predicate Init(s: State) { RJ.Init(s.j) && TP.Init(s.p) }

  ghost predicate Next(s: State, s': State) {
    exists step :: Enabled(s, step) && Playable(s, step) && s' == Apply(s, step)
  }

  ghost predicate IsRun(run: seq<State>) {
    run != [] && Init(run[0]) && forall i :: 0 <= i < |run| - 1 ==> Next(run[i], run[i + 1])
  }

  lemma InitIsGood(s: State)
    requires Init(s)
    ensures Inv(s)
  {
    RJ.InitIsGood(s.j);
    TP.InitIsGood(s.p);
    forall t ensures DeadOk(s, t) {
      assert RJ.Untouched(s.j, t);
    }
    forall sid ensures InboxOk(s, sid) {
      assert RJ.NoReaps(s.j, sid) && s.p.inbox(sid) == [];
    }
  }

  lemma {:induction false} RunsKeepInv(run: seq<State>, i: nat)
    requires IsRun(run) && i < |run|
    ensures Inv(run[i])
  {
    if i == 0 {
      InitIsGood(run[0]);
    } else {
      RunsKeepInv(run, i - 1);
      assert Next(run[i - 1], run[i]);
      var step :| Enabled(run[i - 1], step) && Playable(run[i - 1], step) && run[i] == Apply(run[i - 1], step);
      StepKeepsInv(run[i - 1], step);
    }
  }

  /**
   At any point of any run, a REAP about to be applied finds its thread in the dead queue of its home,
   dead, joined and not freed; and a joiner about to send one could not be sending it too early or twice.
   */
  lemma ReapAlwaysFindsItsThread(run: seq<State>, i: nat, sid: Sid, t: Tid)
    requires IsRun(run) && i < |run|
    ensures var s := run[i];
            && (s.p.inbox(sid) != [] && s.p.inbox(sid)[0] == Reap(t) ==>
                  s.Home(t) == sid && Contains(s.p.g(sid).dq, t) && s.j.Of(t).stage.Posted? && t !in s.j.frees)
            && (s.j.Of(t).stage.Got? ==> TP.Enabled(s.p, TP.Send(s.Home(t), Reap(t))))
  {
    RunsKeepInv(run, i);
    var s := run[i];
    if s.p.inbox(sid) != [] && s.p.inbox(sid)[0] == Reap(t) {
      FrontReap(s, sid);
      assert RJ.TargetOk(s.j, t);
    }
    if s.j.Of(t).stage.Got? {
      PostIsAllowed(s, t);
    }
  }

  lemma ReapLeavesNothing(g: Gs, t: Tid)
    requires Sound(g) && Contains(g.dq, t)
    ensures SchedulerOps.Apply(g, Reap(t)).frees == g.frees + [t] && Held(SchedulerOps.Apply(g, Reap(t)), t) == 0
  {
    assert SoundAt(g, t);
    CountContains(g.dq, t);
    ReapAt(g, t, t);
  }

  lemma DrainFreesInTheQueues(p: TP.State, sid: Sid)
    requires TP.Inv(p) && TP.Enabled(p, TP.Deliver(sid)) && p.inbox(sid)[0].Reap?
    ensures var t, g := p.inbox(sid)[0].t, TP.Apply(p, TP.Deliver(sid)).g(sid);
            g.frees == p.g(sid).frees + [t] && Held(g, t) == 0
  {
    TP.DeliveryIsTheOperation(p, sid, sid);
    assert TP.SchedulerOk(p, sid);
    ReapLeavesNothing(p.g(sid), p.inbox(sid)[0].t);
  }

  lemma DrainFreesInTheJoin(j: RJ.State, sid: Sid, t: Tid)
    requires RJ.Enabled(j, RJ.DrainReap(sid)) && j.reaps(sid)[0] == t
    ensures var j' := RJ.Apply(j, RJ.DrainReap(sid)); j'.frees == j.frees + [t] && j'.Of(t).life == RJ.Freed
  {
  }

  /** A drained REAP frees its thread's block in the scheduler's books and in the joiner's, and the scheduler holds it no more. */
  lemma DrainFrees(s: State, sid: Sid)
    requires Inv(s) && Enabled(s, Drain(sid))
    ensures var t, p', j' := s.p.inbox(sid)[0].t, TP.Apply(s.p, TP.Deliver(sid)), RJ.Apply(s.j, RJ.DrainReap(sid));
            && p'.g(sid).frees == s.p.g(sid).frees + [t] && Held(p'.g(sid), t) == 0
            && j'.frees == s.j.frees + [t] && j'.Of(t).life == RJ.Freed
            && Playable(s, Drain(sid)) && Apply(s, Drain(sid)) == s.(p := p', j := j')
  {
    FrontReap(s, sid);
    DrainFreesInTheQueues(s.p, sid);
    DrainFreesInTheJoin(s.j, sid, s.p.inbox(sid)[0].t);
  }
}
