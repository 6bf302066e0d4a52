/**
 The directed-wakeup protocol under every blocking primitive: a thread parks on a primitive's wait
 queue, resets its event and blocks in `pth_wait`; some other OS thread takes it off the queue, and
 afterwards, outside the primitive's spinlock, posts a wakeup to the inbox of its home scheduler,
 which marks the event when it drains.

 One step of the model is one spinlock critical section, one inbox push, one message applied by a
 drain, or one scheduling decision. Any number of threads, schedulers and primitives take part.
 Threads are pinned to their home scheduler, so a scheduler never drains while one of its own threads
 runs.
 */
module Wakeup {
  import opened Basics

  /** The call sites that own a static event; each thread has one event per site. */
  datatype Kind = MutexEvent | ReadEvent | WriteEvent | CondEvent | JoinEvent

  datatype Prim = Prim(kind: Kind, id: int)

  datatype Phase =
    | Active          // running, or ready to run, outside any wait
    | Parked(p: Prim)   // on the queue of `p`, not yet inside pth_wait
    | Waiting(p: Prim)  // blocked in pth_wait
    | Awake(p: Prim)    // made ready again, has not yet taken the primitive's spinlock
    | Gone            // dead and cleaned up

  datatype Wake = Wake(thread: Tid, event: Kind)

  datatype World = World(
    home: Tid -> Sid,
    phase: Tid -> Phase,
    wqEvent: Tid -> Kind,        // the event a waker must mark, as last stored by the thread
    occurred: set<Wake>,         // events that are no longer pending
    queue: Prim -> seq<Tid>,
    current: Sid -> Option<Tid>, // the thread a scheduler is running, if any
    posts: Sid -> set<Tid>,      // threads this OS thread has dequeued and still has to wake
    inbox: Sid -> seq<Wake>)
  {
    predicate Runs(t: Tid) { current(home(t)) == Some(t) }
    predicate WaitsOn(t: Tid, p: Prim) { phase(t) == Parked(p) || phase(t) == Waiting(p) || phase(t) == Awake(p) }
    predicate Idle(s: Sid) { current(s) == None && posts(s) == {} }
    predicate Executes(t: Tid) { Runs(t) && posts(home(t)) == {} }
  }

  datatype Step =
    | Park(t: Tid, p: Prim)
    | Block(t: Tid)
    | Shift(s: Sid, p: Prim, n: nat)
    | Post(s: Sid, t: Tid)
    | Deliver(s: Sid)
    | Promote(t: Tid, directed: bool)
    | Dispatch(t: Tid)
    | Yield(t: Tid)
    | Leave(t: Tid)
    | Cancel(t: Tid)
    | Exit(t: Tid)

  predicate Enabled(w: World, step: Step) {
    match step
    case Park(t, p) => w.Executes(t) && w.phase(t) == Active
    case Block(t) => w.Executes(t) && w.phase(t).Parked?
    case Shift(s, p, n) => w.posts(s) == {} && n <= |w.queue(p)|
    case Post(s, t) => t in w.posts(s)
    case Deliver(s) => w.Idle(s) && w.inbox(s) != []
    case Promote(t, directed) =>
      && w.Idle(w.home(t)) && w.phase(t).Waiting?
      && (directed ==> Wake(t, w.phase(t).p.kind) in w.occurred)
    case Dispatch(t) => w.Idle(w.home(t)) && (w.phase(t).Active? || w.phase(t).Awake?)
    case Yield(t) => w.Executes(t) && w.phase(t) == Active
    case Leave(t) => w.Executes(t) && w.phase(t).Awake?
    case Cancel(t) => !w.Runs(t) && w.posts(w.home(t)) == {} && (w.phase(t).Waiting? || w.phase(t).Awake?)
    case Exit(t) => w.posts(w.home(t)) == {} && w.phase(t) == Active
  }

  function Apply(w: World, step: Step): World
    requires Enabled(w, step)
  {
    match step
    case Park(t, p) =>
      w.(phase := Set(w.phase, t, Parked(p)), wqEvent := Set(w.wqEvent, t, p.kind),
         queue := Set(w.queue, p, w.queue(p) + [t]))
    case Block(t) =>
      // pth_wait: reset the event to pending, enter the waiting state, switch to the scheduler
      w.(phase := Set(w.phase, t, Waiting(w.phase(t).p)),
         occurred := w.occurred - {Wake(t, w.phase(t).p.kind)},
         current := Set(w.current, w.home(t), None))
    case Shift(s, p, n) =>
      w.(posts := Set(w.posts, s, set x | x in w.queue(p)[..n]), queue := Set(w.queue, p, w.queue(p)[n..]))
    case Post(s, t) =>
      // the event is read here, after the spinlock was dropped
      w.(posts := Set(w.posts, s, w.posts(s) - {t}),
         inbox := Set(w.inbox, w.home(t), w.inbox(w.home(t)) + [Wake(t, w.wqEvent(t))]))
    case Deliver(s) =>
      w.(occurred := w.occurred + {w.inbox(s)[0]}, inbox := Set(w.inbox, s, w.inbox(s)[1..]))
    case Promote(t, directed) =>
      w.(phase := Set(w.phase, t, Awake(w.phase(t).p)))
    case Dispatch(t) =>
      w.(current := Set(w.current, w.home(t), Some(t)))
    case Yield(t) =>
      w.(current := Set(w.current, w.home(t), None))
    case Leave(t) =>
      var p := w.phase(t).p;
      w.(phase := Set(w.phase, t, Active), queue := Set(w.queue, p, Remove(w.queue(p), t)))
    case Cancel(t) =>
      var p := w.phase(t).p;
      w.(phase := Set(w.phase, t, Gone), queue := Set(w.queue, p, Remove(w.queue(p), t)))
    case Exit(t) =>
      // by itself while it runs, or cancelled asynchronously while it is ready
      w.(phase := Set(w.phase, t, Gone), current := if w.Runs(t) then Set(w.current, w.home(t), None) else w.current)
  }

  ghost predicate Init(w: World) {
    && (forall t :: w.phase(t) == Active)
    && (forall p :: w.queue(p) == [])
  }

  ghost predicate Next(w: World, w': World) {
    exists step :: Enabled(w, step) && w' == Apply(w, step)
  }

  /** The wakeup of `t` is still to be posted, sits in its home inbox, or has been applied. */
  ghost predicate InTransit(w: World, t: Tid, p: Prim) {
    || (exists s :: t in w.posts(s))
    || Wake(t, p.kind) in w.inbox(w.home(t))
    || (w.phase(t) == Waiting(p) && Wake(t, p.kind) in w.occurred)
  }

  predicate Sleeps(w: World, t: Tid, p: Prim) {
    w.phase(t) == Parked(p) || w.phase(t) == Waiting(p)
  }

  ghost predicate QueuesWaiters(w: World) {
    && (forall p :: NoDup(w.queue(p)))
    && (forall p, t :: t in w.queue(p) ==> w.WaitsOn(t, p))
  }

  ghost predicate EventsAgree(w: World) {
    forall t, p :: w.WaitsOn(t, p) ==> w.wqEvent(t) == p.kind
  }

  ghost predicate ParkedRun(w: World) {
    forall t :: w.phase(t).Parked? ==> w.Runs(t)
  }

  /** No lost wakeup: whoever sleeps without being queued has a wakeup on its way. */
  ghost predicate NoneLost(w: World) {
    forall t, p :: Sleeps(w, t, p) && t !in w.queue(p) ==> InTransit(w, t, p)
  }

  ghost predicate Inv(w: World) {
    QueuesWaiters(w) && EventsAgree(w) && ParkedRun(w) && NoneLost(w)
  }

  lemma StepKeepsQueues(w: World, step: Step)
    requires Inv(w) && Enabled(w, step)
    ensures QueuesWaiters(Apply(w, step)) && EventsAgree(Apply(w, step)) && ParkedRun(Apply(w, step))
  {
    var w' := Apply(w, step);
    match step
    case Leave(t) => RemoveKeepsNoDup(w.queue(w.phase(t).p), t);
    case Cancel(t) => RemoveKeepsNoDup(w.queue(w.phase(t).p), t);
    case Park(t, p) =>
      assert t !in w.queue(p);
      AppendKeepsNoDup(w.queue(p), t);
    case Shift(s, p, n) =>
      assert forall x :: x in w'.queue(p) ==> x in w.queue(p);
    case _ =>
  }

  lemma StepLosesNone(w: World, step: Step)
    requires Inv(w) && Enabled(w, step)
    ensures NoneLost(Apply(w, step))
  {
    var w' := Apply(w, step);
    forall t, p | Sleeps(w', t, p) && t !in w'.queue(p) ensures InTransit(w', t, p) {
      if t in w.queue(p) {
        Dequeued(w, step, t, p);
      } else {
        StaysInTransit(w, step, t, p);
      }
    }
  }

  /** Only a shift takes a thread that stays asleep off its queue, and then the shifter owes the post. */
  lemma Dequeued(w: World, step: Step, t: Tid, p: Prim)
    requires Inv(w) && Enabled(w, step) && t in w.queue(p)
    requires Sleeps(Apply(w, step), t, p) && t !in Apply(w, step).queue(p)
    ensures InTransit(Apply(w, step), t, p)
  {
    var w' := Apply(w, step);
    match step
    case Shift(s, p', n) =>
      assert p' == p && t in w.queue(p)[..n];
      assert t in w'.posts(s);
    case _ =>
  }

  /** A wakeup on its way stays on its way until the thread is made ready. */
  lemma StaysInTransit(w: World, step: Step, t: Tid, p: Prim)
    requires Inv(w) && Enabled(w, step) && t !in w.queue(p)
    requires Sleeps(Apply(w, step), t, p) && t !in Apply(w, step).queue(p)
    ensures InTransit(Apply(w, step), t, p)
  {
    var w' := Apply(w, step);
    assert Sleeps(w, t, p);
    if Wake(t, p.kind) in w.inbox(w.home(t)) {
      if step == Deliver(w.home(t)) && Wake(t, p.kind) !in w'.inbox(w.home(t)) {
        assert w.inbox(w.home(t))[0] == Wake(t, p.kind);
      }
    } else if s :| t in w.posts(s) {
      if step == Post(s, t) {
        assert Wake(t, p.kind) in w'.inbox(w.home(t));
      } else {
        assert t in w'.posts(s);
      }
    }
  }

  lemma StepKeepsInv(w: World, step: Step)
    requires Inv(w) && Enabled(w, step)
    ensures Inv(Apply(w, step))
  {
    StepKeepsQueues(w, step);
    StepLosesNone(w, step);
  }

  ghost predicate IsRun(run: seq<World>) {
    run != [] && Init(run[0]) && forall i :: 0 <= i < |run| - 1 ==> Next(run[i], run[i + 1])
  }

  /** In every state of every run, no wakeup is lost. */
  lemma {:induction false} RunLosesNoWakeup(run: seq<World>, i: nat)
    requires IsRun(run) && i < |run|
    ensures Inv(run[i])
  {
    if i > 0 {
      RunLosesNoWakeup(run, i - 1);
      assert Next(run[i - 1], run[i]);
      var step :| Enabled(run[i - 1], step) && run[i] == Apply(run[i - 1], step);
      StepKeepsInv(run[i - 1], step);
    }
  }

  /**
   The reset to pending inside `pth_wait` never erases a wakeup: if the thread was already dequeued
   when it blocks, its wakeup has not been applied yet and is still to be posted or delivered.
   */
  lemma ResetErasesNoWakeup(w: World, t: Tid, p: Prim)
    requires Inv(w) && w.phase(t) == Parked(p) && Enabled(w, Block(t)) && t !in w.queue(p)
    ensures var w' := Apply(w, Block(t));
            (exists s :: t in w'.posts(s)) || Wake(t, p.kind) in w'.inbox(w'.home(t))
  {
    var w' := Apply(w, Block(t));
    if s :| t in w.posts(s) {
      assert t in w'.posts(s);
    }
  }

  /** Once nothing is left to post or deliver, a dequeued sleeper's event has occurred. */
  lemma QuietWorldHasWoken(w: World, t: Tid, p: Prim)
    requires Inv(w) && w.phase(t) == Waiting(p) && t !in w.queue(p)
    requires (forall s :: w.posts(s) == {}) && w.inbox(w.home(t)) == []
    ensures Wake(t, p.kind) in w.occurred
  {
  }

  // Frames, for the primitives built on this protocol: what a step does to one queue and its waiters

  /** Steps that do not enter the spinlock of primitive `p`. */
  predicate Elsewhere(w: World, step: Step, p: Prim) {
    match step
    case Park(t, p') => p' != p
    case Shift(s, p', n) => p' != p
    case Leave(t) => !w.WaitsOn(t, p)
    case Cancel(t) => !w.WaitsOn(t, p)
    case _ => true
  }

  lemma ElsewhereFrame(w: World, step: Step, p: Prim)
    requires Enabled(w, step) && Elsewhere(w, step, p)
    ensures Apply(w, step).queue(p) == w.queue(p)
    ensures forall t :: Apply(w, step).WaitsOn(t, p) == w.WaitsOn(t, p)
  {
  }

  lemma ParkFrame(w: World, t: Tid, p: Prim)
    requires Inv(w) && Enabled(w, Park(t, p))
    ensures var w' := Apply(w, Park(t, p));
            && Inv(w')
            && w'.queue(p) == w.queue(p) + [t]
            && (forall u :: w'.WaitsOn(u, p) <==> u == t || w.WaitsOn(u, p))
  {
    StepKeepsInv(w, Park(t, p));
  }

  lemma ShiftFrame(w: World, s: Sid, p: Prim, n: nat)
    requires Inv(w) && w.posts(s) == {} && n <= |w.queue(p)|
    ensures var w' := Apply(w, Shift(s, p, n));
            && Inv(w')
            && w'.queue(p) == w.queue(p)[n..]
            && w'.phase == w.phase
    ensures forall t :: t in w.queue(p)[..n] ==> w.WaitsOn(t, p) && t !in w.queue(p)[n..]
    ensures n > 0 ==> w.queue(p)[0] in w.queue(p)[..n]
  {
    StepKeepsInv(w, Shift(s, p, n));
    PrefixSuffixDisjoint(w.queue(p), n);
  }

  /** How a waiter leaves: by itself when it runs, else by the cancelling scheduler. */
  function Departure(w: World, t: Tid): Step {
    if w.Runs(t) then Leave(t) else Cancel(t)
  }

  lemma DepartFrame(w: World, t: Tid, p: Prim)
    requires Inv(w) && w.WaitsOn(t, p) && Enabled(w, Departure(w, t))
    ensures var w' := Apply(w, Departure(w, t));
            && Inv(w')
            && w'.queue(p) == Remove(w.queue(p), t) && t !in w'.queue(p)
            && (forall u :: w'.WaitsOn(u, p) <==> u != t && w.WaitsOn(u, p))
            && w'.posts == w.posts
  {
    StepKeepsInv(w, Departure(w, t));
    RemoveKeepsNoDup(w.queue(p), t);
  }

  /** A thread has the processor from its dispatch until it blocks, yields or ends, and its scheduler runs no other meanwhile. */
  lemma ProcessorIsHeldExactly(w: World, step: Step, t: Tid)
    requires Enabled(w, step)
    ensures Apply(w, step).Runs(t) <==>
            step == Dispatch(t) || (w.Runs(t) && step != Block(t) && step != Yield(t) && step != Exit(t))
  {
  }
}
