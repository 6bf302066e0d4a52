/**
 The other half of the directed-wakeup protocol: a wakeup reaches the wait it was meant for. The
 waker reads the thread's event pointer after it has dropped the primitive's spinlock, so this rests
 on the thread not having gone on to another wait in the meantime. Everything is stated for the waits
 on a set `kinds` of events, so that it can be asked of joins alone or of every wait.
 */
module DirectedWakeup {
  import opened Basics
  import opened Wakeup

  const ALL := {MutexEvent, ReadEvent, WriteEvent, CondEvent, JoinEvent}

  ghost predicate Owed(w: World, t: Tid) { exists s :: t in w.posts(s) }

  predicate Mailed(w: World, t: Tid, k: Kind) { Wake(t, k) in w.inbox(w.home(t)) }

  /** Nothing is on its way that could mark the event of a wait of kind `k`, if `t` began one now. */
  ghost predicate Clear(w: World, t: Tid, k: Kind) { !Owed(w, t) && !Mailed(w, t, k) }

  /** No wakeup for `t` is on its way. */
  ghost predicate Quiet(w: World, t: Tid) { forall k :: Clear(w, t, k) }

  predicate InWait(ph: Phase) { ph.Parked? || ph.Waiting? || ph.Awake? }

  /** `t` is in a wait of one of the kinds. */
  predicate Waits(w: World, t: Tid, kinds: set<Kind>) { InWait(w.phase(t)) && w.phase(t).p.kind in kinds }

  // What holds of a thread in a wait of one of the kinds

  ghost predicate OneWaker(w: World, t: Tid) {
    forall s, r :: t in w.posts(s) && t in w.posts(r) ==> s == r
  }

  /** The wakeup is owed by one waker, or in the inbox once. */
  ghost predicate OneWakeup(w: World, t: Tid, k: Kind) {
    && OneWaker(w, t) && (Mailed(w, t, k) ==> !Owed(w, t))
    && forall i, j :: 0 <= i < j < |w.inbox(w.home(t))| && w.inbox(w.home(t))[i] == Wake(t, k) ==> w.inbox(w.home(t))[j] != Wake(t, k)
  }

  /** A thread with a wakeup on its way was taken off the queue it waits on, and has not had it yet. */
  ghost predicate Meant(w: World, t: Tid) {
    match w.phase(t)
    case Parked(p) => t !in w.queue(p)
    case Waiting(p) => t !in w.queue(p) && Wake(t, p.kind) !in w.occurred
    case _ => false
  }

  /** An event that occurred during a wait, or ended it, belongs to a thread that was dequeued. */
  ghost predicate Justified(w: World, t: Tid) {
    match w.phase(t)
    case Waiting(p) => Wake(t, p.kind) in w.occurred ==> t !in w.queue(p)
    case Awake(p) => t !in w.queue(p)
    case _ => true
  }

  ghost predicate WaitOk(w: World, t: Tid, k: Kind) {
    OneWakeup(w, t, k) && (!Clear(w, t, k) ==> Meant(w, t)) && Justified(w, t)
  }

  /** Outside such a wait nothing is on its way that would mark an event of the kinds. */
  ghost predicate ThreadOk(w: World, t: Tid, kinds: set<Kind>) {
    w.phase(t) != Gone ==>
      && (forall k :: k in kinds && !Waits(w, t, {k}) ==> !Mailed(w, t, k))
      && if Waits(w, t, kinds) then WaitOk(w, t, w.phase(t).p.kind) else Owed(w, t) ==> w.wqEvent(t) !in kinds
  }

  /** Every wakeup in an inbox is for a thread of that scheduler. */
  ghost predicate Homed(w: World) { forall s, m :: m in w.inbox(s) ==> w.home(m.thread) == s }

  ghost predicate Addressed(w: World, kinds: set<Kind>) {
    Homed(w) && forall t :: ThreadOk(w, t, kinds)
  }

  /**
   A wait of one of the kinds is begun only when no wakeup left over from an earlier wait could end
   it, and is ended only by its wakeup. Other waits may be ended at any time.
   */
  ghost predicate Careful(w: World, step: Step, kinds: set<Kind>) {
    match step
    case Park(t, p) => p.kind in kinds ==> Clear(w, t, p.kind)
    case Promote(t, directed) => Waits(w, t, kinds) ==> directed
    case _ => true
  }

  /** The same, asked of the waits of one thread only. */
  ghost predicate CarefulOf(w: World, step: Step, kinds: set<Kind>, t: Tid) {
    (step.Park? || step.Promote?) && step.t == t ==> Careful(w, step, kinds)
  }

  predicate NothingSent(w: World, s: Sid) {
    w.posts(s) == {} && w.inbox(s) == []
  }

  ghost predicate Start(w: World) {
    Init(w) && forall s {:trigger w.posts(s)} {:trigger w.inbox(s)} {:trigger NothingSent(w, s)} :: NothingSent(w, s)
  }

  lemma ShiftKeeps(w: World, s: Sid, p: Prim, n: nat, kinds: set<Kind>, t: Tid)
    requires Inv(w) && ThreadOk(w, t, kinds) && Enabled(w, Shift(s, p, n))
    ensures ThreadOk(Apply(w, Shift(s, p, n)), t, kinds)
  {
    var w' := Apply(w, Shift(s, p, n));
    PrefixSuffixDisjoint(w.queue(p), n);
    assert forall r :: t in w'.posts(r) ==> t in w.posts(r) || (r == s && t in w.queue(p)[..n]);
    assert forall r :: t in w.posts(r) ==> t in w'.posts(r);
    assert forall q :: t in w'.queue(q) ==> t in w.queue(q);
    if t in w.queue(p)[..n] {
      assert t in w.queue(p) && w.WaitsOn(t, p) && w.wqEvent(t) == p.kind;
    } else {
      assert Owed(w', t) ==> Owed(w, t);
    }
  }

  lemma PostKeeps(w: World, s: Sid, u: Tid, kinds: set<Kind>, t: Tid)
    requires Inv(w) && ThreadOk(w, t, kinds) && Enabled(w, Post(s, u))
    ensures ThreadOk(Apply(w, Post(s, u)), t, kinds)
  {
    var w' := Apply(w, Post(s, u));
    assert forall r :: t in w'.posts(r) ==> t in w.posts(r);
    assert Owed(w', t) ==> Owed(w, t);
    if t == u {
      assert Owed(w, t);
      assert OneWaker(w, t) ==> !Owed(w', t);
    } else {
      assert forall k :: Mailed(w', t, k) ==> Mailed(w, t, k);
    }
  }

  lemma DeliverKeeps(w: World, s: Sid, kinds: set<Kind>, t: Tid)
    requires Inv(w) && Homed(w) && ThreadOk(w, t, kinds) && Enabled(w, Deliver(s))
    ensures ThreadOk(Apply(w, Deliver(s)), t, kinds)
  {
    var w' := Apply(w, Deliver(s));
    var m := w.inbox(s)[0];
    assert m in w.inbox(s) && w.home(m.thread) == s;
    assert forall k :: Mailed(w', t, k) ==> Mailed(w, t, k);
    assert Owed(w', t) ==> Owed(w, t);
    if Waits(w, t, kinds) && m == Wake(t, w.phase(t).p.kind) {
      assert Mailed(w, t, m.event) && !Mailed(w', t, m.event);
    }
  }

  lemma MoveKeeps(w: World, step: Step, kinds: set<Kind>, t: Tid)
    requires Inv(w) && ThreadOk(w, t, kinds) && Enabled(w, step) && CarefulOf(w, step, kinds, t)
    requires !step.Shift? && !step.Post? && !step.Deliver?
    ensures ThreadOk(Apply(w, step), t, kinds)
  {
    var w' := Apply(w, step);
    assert w'.posts == w.posts && w'.inbox == w.inbox && w'.home == w.home;
    assert forall k :: Mailed(w', t, k) == Mailed(w, t, k);
    assert Owed(w', t) == Owed(w, t);
    assert step.Park? || forall p :: t in w'.queue(p) ==> t in w.queue(p);
  }

  lemma StepKeepsHomed(w: World, step: Step)
    requires Homed(w) && Enabled(w, step)
    ensures Homed(Apply(w, step))
  {
  }

  lemma StepKeepsThread(w: World, step: Step, kinds: set<Kind>, t: Tid)
    requires Inv(w) && Homed(w) && ThreadOk(w, t, kinds) && Enabled(w, step) && CarefulOf(w, step, kinds, t)
    ensures ThreadOk(Apply(w, step), t, kinds)
  {
    match step
    case Shift(s, p, n) => ShiftKeeps(w, s, p, n, kinds, t);
    case Post(s, u) => PostKeeps(w, s, u, kinds, t);
    case Deliver(s) => DeliverKeeps(w, s, kinds, t);
    case _ => MoveKeeps(w, step, kinds, t);
  }

  lemma StepKeepsAddressed(w: World, step: Step, kinds: set<Kind>)
    requires Inv(w) && Addressed(w, kinds) && Enabled(w, step) && Careful(w, step, kinds)
    ensures Addressed(Apply(w, step), kinds)
  {
    StepKeepsHomed(w, step);
    forall t ensures ThreadOk(Apply(w, step), t, kinds) {
      assert ThreadOk(w, t, kinds);
      StepKeepsThread(w, step, kinds, t);
    }
  }

  // Runs, from the start or from any state

  ghost predicate CarefulNext(w: World, w': World, kinds: set<Kind>, t: Tid) {
    exists step :: Enabled(w, step) && CarefulOf(w, step, kinds, t) && w' == Apply(w, step)
  }

  ghost predicate CarefulPath(path: seq<World>, kinds: set<Kind>, t: Tid) {
    path != [] && forall i :: 0 <= i < |path| - 1 ==> CarefulNext(path[i], path[i + 1], kinds, t)
  }

  ghost predicate CarefulRun(run: seq<World>, kinds: set<Kind>, t: Tid) {
    CarefulPath(run, kinds, t) && Start(run[0])
  }

  lemma StartIsAddressed(w: World, kinds: set<Kind>)
    requires Start(w)
    ensures Addressed(w, kinds)
  {
    forall t ensures ThreadOk(w, t, kinds) {
      assert w.phase(t) == Active && NothingSent(w, w.home(t));
      assert forall s :: NothingSent(w, s);
    }
    forall s ensures w.inbox(s) == [] {
      assert NothingSent(w, s);
    }
  }

  lemma {:induction false} PathsKeepThread(path: seq<World>, kinds: set<Kind>, t: Tid, i: nat)
    requires CarefulPath(path, kinds, t) && Inv(path[0]) && Homed(path[0]) && ThreadOk(path[0], t, kinds) && i < |path|
    ensures Inv(path[i]) && Homed(path[i]) && ThreadOk(path[i], t, kinds)
  {
    if i > 0 {
      PathsKeepThread(path, kinds, t, i - 1);
      assert CarefulNext(path[i - 1], path[i], kinds, t);
      var step :| Enabled(path[i - 1], step) && CarefulOf(path[i - 1], step, kinds, t) && path[i] == Apply(path[i - 1], step);
      StepKeepsInv(path[i - 1], step);
      StepKeepsHomed(path[i - 1], step);
      StepKeepsThread(path[i - 1], step, kinds, t);
    }
  }

  /** The event of a wait is marked although nobody has taken the thread off the queue. */
  predicate Misled(w: World, t: Tid, p: Prim) {
    w.phase(t) == Waiting(p) && t in w.queue(p) && Wake(t, p.kind) in w.occurred
  }

  /**
   If a thread begins and ends its waits of one kind with care, then such a wait's event is marked, and the
   wait ended, only after its thread was taken off the queue of the very primitive it waits on.
   */
  lemma WakeupsReachTheirWait(run: seq<World>, i: nat, t: Tid, p: Prim)
    requires CarefulRun(run, {p.kind}, t) && i < |run|
    ensures !Misled(run[i], t, p) && (run[i].phase(t) == Awake(p) ==> t !in run[i].queue(p))
  {
    StartIsAddressed(run[0], {p.kind});
    PathsKeepThread(run, {p.kind}, t, i);
  }

  // Runs in which every wait is ended by its wakeup need no further care

  predicate DirectedStep(step: Step) { step.Promote? ==> step.directed }

  lemma AllKinds(k: Kind)
    ensures k in ALL
  {
    match k
    case MutexEvent =>
    case ReadEvent =>
    case WriteEvent =>
    case CondEvent =>
    case JoinEvent =>
  }

  lemma BackIsQuiet(w: World, t: Tid)
    requires Addressed(w, ALL) && (w.phase(t) == Active || w.phase(t).Awake?)
    ensures Quiet(w, t) && (w.phase(t).Awake? ==> t !in w.queue(w.phase(t).p))
  {
    assert ThreadOk(w, t, ALL);
    AllKinds(w.wqEvent(t));
    if w.phase(t).Awake? {
      AllKinds(w.phase(t).p.kind);
    }
    forall k ensures Clear(w, t, k) {
      AllKinds(k);
    }
  }

  lemma DirectedIsCareful(w: World, step: Step)
    requires Inv(w) && Addressed(w, ALL) && Enabled(w, step) && DirectedStep(step)
    ensures Careful(w, step, ALL) && (step.Leave? ==> Quiet(w, step.t))
  {
    if step.Park? || step.Leave? {
      BackIsQuiet(w, step.t);
    }
  }

  ghost predicate DirectedNext(w: World, w': World) {
    exists step :: Enabled(w, step) && DirectedStep(step) && w' == Apply(w, step)
  }

  ghost predicate DirectedRun(run: seq<World>) {
    run != [] && Start(run[0]) && forall i :: 0 <= i < |run| - 1 ==> DirectedNext(run[i], run[i + 1])
  }

  lemma {:induction false} DirectedRunsAreAddressed(run: seq<World>, i: nat)
    requires DirectedRun(run) && i < |run|
    ensures Inv(run[i]) && Addressed(run[i], ALL)
  {
    if i == 0 {
      StartIsAddressed(run[0], ALL);
    } else {
      DirectedRunsAreAddressed(run, i - 1);
      assert DirectedNext(run[i - 1], run[i]);
      var step :| Enabled(run[i - 1], step) && DirectedStep(step) && run[i] == Apply(run[i - 1], step);
      DirectedIsCareful(run[i - 1], step);
      StepKeepsInv(run[i - 1], step);
      StepKeepsAddressed(run[i - 1], step, ALL);
    }
  }

  /**
   If every wait is ended by its wakeup, a thread that comes back from a wait has been dequeued and
   nothing more is on its way to it: no leftover wakeup can reach a later wait.
   */
  lemma DirectedWaitsLeaveNothingBehind(run: seq<World>, i: nat, t: Tid)
    requires DirectedRun(run) && i < |run|
    ensures run[i].phase(t).Awake? ==> Quiet(run[i], t) && t !in run[i].queue(run[i].phase(t).p)
    ensures run[i].phase(t) == Active ==> Quiet(run[i], t)
  {
    DirectedRunsAreAddressed(run, i);
    if run[i].phase(t) == Active || run[i].phase(t).Awake? {
      BackIsQuiet(run[i], t);
    }
  }

  // A leftover wakeup does end a later wait

  function Last(path: seq<World>): World
    requires path != []
  {
    path[|path| - 1]
  }

  lemma Extend(path: seq<World>, step: Step, kinds: set<Kind>, t: Tid) returns (longer: seq<World>)
    requires CarefulPath(path, kinds, t) && Enabled(Last(path), step) && CarefulOf(Last(path), step, kinds, t)
    ensures CarefulPath(longer, kinds, t) && longer[0] == path[0] && Last(longer) == Apply(Last(path), step)
  {
    longer := path + [Apply(Last(path), step)];
    forall i | 0 <= i < |longer| - 1 ensures CarefulNext(longer[i], longer[i + 1], kinds, t) {
      assert i < |path| - 1 ==> CarefulNext(path[i], path[i + 1], kinds, t);
      assert i == |path| - 1 ==> longer[i] == Last(path);
    }
  }

  /** The home scheduler applies its inbox up to a wakeup of the right kind. */
  lemma {:induction false} DeliverUpTo(path: seq<World>, kinds: set<Kind>, t: Tid, p: Prim, j: nat) returns (longer: seq<World>)
    requires CarefulPath(path, kinds, t)
    requires var w := Last(path);
             && w.phase(t) == Waiting(p) && t in w.queue(p) && w.Idle(w.home(t))
             && j < |w.inbox(w.home(t))| && w.inbox(w.home(t))[j] == Wake(t, p.kind)
    ensures CarefulPath(longer, kinds, t) && longer[0] == path[0] && Misled(Last(longer), t, p)
    decreases j
  {
    longer := Extend(path, Deliver(Last(path).home(t)), kinds, t);
    if j > 0 {
      longer := DeliverUpTo(longer, kinds, t, p, j - 1);
    }
  }

  /** Whatever could mark the event of a wait that begins now goes on to do so. */
  lemma LeftoverMisleads(w: World, t: Tid, p: Prim) returns (path: seq<World>)
    requires Inv(w) && Enabled(w, Park(t, p)) && !Clear(w, t, p.kind)
    ensures CarefulPath(path, {p.kind}, t) && path[0] == Apply(w, Park(t, p)) && Misled(Last(path), t, p)
  {
    path := [Apply(w, Park(t, p))];
    var h := w.home(t);
    path := Extend(path, Block(t), {p.kind}, t);
    if !Mailed(w, t, p.kind) {
      var s :| t in w.posts(s);
      path := Extend(path, Post(s, t), {p.kind}, t);
    }
    var j :| 0 <= j < |Last(path).inbox(h)| && Last(path).inbox(h)[j] == Wake(t, p.kind);
    path := DeliverUpTo(path, {p.kind}, t, p, j);
  }

  /** However things go on, the event of the wait that begins now is not marked before its thread is dequeued. */
  ghost predicate SafeToPark(w: World, t: Tid, p: Prim)
    requires Enabled(w, Park(t, p))
  {
    forall path: seq<World>, i :: CarefulPath(path, {p.kind}, t) && path[0] == Apply(w, Park(t, p)) && 0 <= i < |path| ==>
      !Misled(path[i], t, p)
  }

  /** Beginning a wait is safe exactly when no waker owes the thread a wakeup and none of that kind is in its inbox. */
  lemma ParkIsSafeExactlyWhen(w: World, t: Tid, p: Prim)
    requires Inv(w) && Homed(w) && Enabled(w, Park(t, p))
    ensures SafeToPark(w, t, p) <==> Clear(w, t, p.kind)
  {
    var w' := Apply(w, Park(t, p));
    if Clear(w, t, p.kind) {
      StepKeepsInv(w, Park(t, p));
      StepKeepsHomed(w, Park(t, p));
      assert !Owed(w', t) && !Mailed(w', t, p.kind) && ThreadOk(w', t, {p.kind});
      forall path: seq<World>, i | CarefulPath(path, {p.kind}, t) && path[0] == w' && 0 <= i < |path|
        ensures !Misled(path[i], t, p)
      {
        PathsKeepThread(path, {p.kind}, t, i);
      }
    } else {
      var path := LeftoverMisleads(w, t, p);
      assert Misled(path[|path| - 1], t, p);
    }
  }

  /**
   Leaving a wait, whether woken or timed out, leaves every later wait safe to begin exactly when no
   wakeup is on its way to the leaver.
   */
  lemma LeaveIsSafeExactlyWhen(w: World, t: Tid)
    requires Inv(w) && Homed(w) && Enabled(w, Leave(t))
    ensures (forall p :: SafeToPark(Apply(w, Leave(t)), t, p)) <==> Quiet(w, t)
  {
    var w' := Apply(w, Leave(t));
    StepKeepsInv(w, Leave(t));
    StepKeepsHomed(w, Leave(t));
    assert forall k :: Mailed(w', t, k) == Mailed(w, t, k);
    assert Owed(w', t) == Owed(w, t);
    forall p ensures SafeToPark(w', t, p) <==> Clear(w, t, p.kind) {
      ParkIsSafeExactlyWhen(w', t, p);
    }
    if forall p :: SafeToPark(w', t, p) {
      forall k ensures Clear(w, t, k) {
        assert SafeToPark(w', t, Prim(k, 0));
      }
    }
  }

  /** A thread is taken off a mutex queue, times out, and goes on before its waker has posted. */
  lemma TimeOutWhileOwed(w: World, t: Tid, waker: Sid, mx: Prim) returns (run: seq<World>)
    requires Start(w) && w.Idle(w.home(t)) && waker != w.home(t) && mx.kind == MutexEvent
    ensures CarefulRun(run, {JoinEvent}, t) && run[0] == w
    ensures var l := Last(run); l.Executes(t) && l.phase(t) == Active && t in l.posts(waker)
  {
    assert forall s :: NothingSent(w, s);
    run := Extend([w], Dispatch(t), {JoinEvent}, t);
    run := Extend(run, Park(t, mx), {JoinEvent}, t);
    run := Extend(run, Block(t), {JoinEvent}, t);
    assert Last(run).queue(mx) == [t] && Last(run).queue(mx)[..1] == [t];
    run := Extend(run, Shift(waker, mx, 1), {JoinEvent}, t);
    assert t in Last(run).posts(waker);
    run := Extend(run, Promote(t, false), {JoinEvent}, t);
    run := Extend(run, Dispatch(t), {JoinEvent}, t);
    run := Extend(run, Leave(t), {JoinEvent}, t);
  }

  /**
   From the start a thread can come to be owed a wakeup of a mutex it has timed out of. A join begun
   there is not safe: some continuation marks it as finished while its joiner is still queued.
   */
  lemma StaleWakeupEndsAJoin(w: World, t: Tid, waker: Sid, mx: Prim, join: Prim) returns (run: seq<World>, end: seq<World>)
    requires Start(w) && w.Idle(w.home(t)) && waker != w.home(t)
    requires mx.kind == MutexEvent && join.kind == JoinEvent
    ensures CarefulRun(run, {JoinEvent}, t) && run[0] == w && Enabled(Last(run), Park(t, join))
    ensures CarefulPath(end, {JoinEvent}, t) && end[0] == Apply(Last(run), Park(t, join)) && Misled(Last(end), t, join)
  {
    run := TimeOutWhileOwed(w, t, waker, mx);
    StartIsAddressed(w, {JoinEvent});
    PathsKeepThread(run, {JoinEvent}, t, |run| - 1);
    end := LeftoverMisleads(Last(run), t, join);
  }
}
