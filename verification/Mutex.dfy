/**
 The mutex of pth_sync.c. Each spinlock critical section is a function on the mutex state and a
 method of class `Mutex` proved against it; `MutexProtocol` runs those sections concurrently.
 */
module MutexSections {
  import opened Basics
  import opened WaitQueue

  /** `rings` holds the threads whose ring of held mutexes contains this mutex's node. */
  datatype Mx = Mx(
    initialized: bool, locked: bool, fair: bool,
    owner: Option<Tid>, count: int, waitq: seq<Tid>, rings: set<Tid>)

  datatype Verdict = Acquired | Recursive | Busy | Queued | Interrupted | Invalid

  datatype Release = Released | NotHeld | NotOwner

  function Take(m: Mx, me: Tid): Mx {
    m.(locked := true, owner := Some(me), count := 1, rings := m.rings + {me})
  }

  /** Entry into `pth_mutex_acquire`, up to the point where the caller returns or parks. */
  function Enter(m: Mx, me: Tid, tryOnly: bool): (Mx, Verdict) {
    if !m.initialized then (m, Invalid)
    else if !m.locked then (Take(m, me), Acquired)
    else if m.count >= 1 && m.owner == Some(me) then (m.(count := m.count + 1), Recursive)
    else if tryOnly then (m, Busy)
    else (m.(waitq := m.waitq + [me]), Queued)
  }

  /** What a parked thread does once `pth_wait` has returned; `pending` is its own event's status. */
  function Recheck(m: Mx, me: Tid, extra: bool, pending: bool): (Mx, Verdict) {
    if m.owner == Some(me) then (m.(rings := m.rings + {me}), Acquired)
    else
      var m1 := m.(waitq := Remove(m.waitq, me));
      if extra && pending then (m1, Interrupted)
      else if !m1.locked then (Take(m1, me), Acquired)
      else (m1.(waitq := m1.waitq + [me]), Queued)
  }

  /** Give the lock to the first waiter if there is one, else open it. */
  function PassOn(m: Mx): (Mx, Option<Tid>) {
    if m.waitq != [] then
      (m.(owner := Some(m.waitq[0]), count := 1, waitq := m.waitq[1..]), Some(m.waitq[0]))
    else
      (m.(locked := false, owner := None, count := 0), None)
  }

  /** `pth_mutex_release`; the third result is the thread the caller must wake afterwards. */
  function Leave(m: Mx, me: Tid): (Mx, Release, Option<Tid>) {
    if !m.initialized || !m.locked then (m, NotHeld, None)
    else if m.owner != Some(me) then (m, NotOwner, None)
    else if m.count - 1 > 0 then (m.(count := m.count - 1), Released, None)
    else if m.fair then
      var (m', woken) := PassOn(m);
      (m'.(rings := m.rings - {me}), Released, woken)
    else
      (m.(locked := false, owner := None, count := 0, rings := m.rings - {me},
          waitq := if m.waitq == [] then [] else m.waitq[1..]),
       Released, if m.waitq == [] then None else Some(m.waitq[0]))
  }

  /** The cleanup handler of a waiter that is cancelled inside `pth_wait`. */
  function Cleanup(m: Mx, me: Tid): (Mx, Option<Tid>) {
    if m.owner == Some(me) then PassOn(m)
    else (m.(waitq := Remove(m.waitq, me)), None)
  }

  /** A mutex that was never initialized is refused and left alone. */
  lemma UninitializedIsRefused(m: Mx, me: Tid, tryOnly: bool)
    requires !m.initialized
    ensures Enter(m, me, tryOnly) == (m, Invalid) && Leave(m, me).0 == m && Leave(m, me).1 != Released && Leave(m, me).2 == None
  {
  }

  function IdOf(w: Waiter?): Option<Tid> { if w == null then None else Some(w.id) }

  /** The mutex with its linked wait queue; `me` is the caller's control block. */
  class Mutex {
    var initialized: bool
    var locked: bool
    var fair: bool
    var owner: Option<Tid>
    var count: int
    const queue: Queue
    var rings: set<Tid>

    ghost predicate Valid()
      reads this, queue, queue.items
    {
      queue.Valid()
    }

    ghost function View(): Mx
      reads this, queue
    {
      Mx(initialized, locked, fair, owner, count, Ids(queue.items), rings)
    }

    /** pth_mutex_init */
    constructor ()
      ensures Valid() && fresh(queue) && View() == Mx(true, false, false, None, 0, [], {})
    {
      initialized, locked, fair := true, false, false;
      owner, count, rings := None, 0, {};
      queue := new Queue();
    }

    method SetFair(on: bool) returns (ok: bool)
      requires Valid()
      modifies this
      ensures Valid() && ok == old(initialized)
      ensures View() == if ok then old(View()).(fair := on) else old(View())
    {
      if !initialized {
        return false;
      }
      fair := on;
      ok := true;
    }

    /** pth_mutex_acquire, first critical section */
    method TryAcquire(me: Waiter, tryOnly: bool) returns (v: Verdict)
      requires Valid() && me !in queue.items
      modifies this, queue, queue.items, me
      ensures Valid() && (View(), v) == Enter(old(View()), me.id, tryOnly)
      ensures Comes(queue.items, old(queue.items), me)
    {
      if !initialized {
        return Invalid;
      }
      if !locked {
        locked := true;
        owner := Some(me.id);
        count := 1;
        rings := rings + {me.id};
        return Acquired;
      }
      if count >= 1 && owner == Some(me.id) {
        count := count + 1;
        return Recursive;
      }
      if tryOnly {
        return Busy;
      }
      LineUp(queue, me);
      v := Queued;
    }

    /** pth_mutex_acquire, critical section after each return from pth_wait */
    method AfterWait(me: Waiter, extra: bool, pending: bool) returns (v: Verdict)
      requires Valid() && Known(queue.items, me)
      modifies this, queue, queue.items, me
      ensures Valid() && (View(), v) == Recheck(old(View()), me.id, extra, pending)
      ensures Comes(queue.items, old(queue.items), me)
    {
      if owner == Some(me.id) {
        rings := rings + {me.id};
        return Acquired;
      }
      var _ := DropOut(queue, me);
      if extra && pending {
        return Interrupted;
      }
      v := Retry(me);
    }

    /** Take the mutex if it is open, else park again. */
    method Retry(me: Waiter) returns (v: Verdict)
      requires Valid() && me !in queue.items
      modifies this, queue, queue.items, me
      ensures Valid()
      ensures (View(), v) == if old(locked) then (old(View()).(waitq := old(View()).waitq + [me.id]), Queued)
                             else (Take(old(View()), me.id), Acquired)
      ensures Comes(queue.items, old(queue.items), me)
    {
      if locked {
        LineUp(queue, me);
        return Queued;
      }
      locked := true;
      owner := Some(me.id);
      count := 1;
      rings := rings + {me.id};
      v := Acquired;
    }

    /** pth_mutex_release */
    method Unlock(me: Waiter) returns (r: Release, w: Waiter?)
      requires Valid()
      modifies this, queue, queue.items
      ensures Valid() && (View(), r, IdOf(w)) == Leave(old(View()), me.id)
      ensures Comes(queue.items, old(queue.items), me)
    {
      if !initialized || !locked {
        return NotHeld, null;
      }
      if owner != Some(me.id) {
        return NotOwner, null;
      }
      r, w := Released, null;
      count := count - 1;
      if count <= 0 {
        w := CallFirst(queue);
        if w != null && fair {
          owner := Some(w.id);
          count := 1;
          rings := rings - {me.id};
        } else {
          locked := false;
          owner := None;
          count := 0;
          rings := rings - {me.id};
        }
      }
    }

    /** pth_mutex_wait_cleanup */
    method WaitCleanup(me: Waiter) returns (w: Waiter?)
      requires Valid() && Known(queue.items, me)
      modifies this, queue, queue.items
      ensures Valid() && (View(), IdOf(w)) == Cleanup(old(View()), me.id)
      ensures Comes(queue.items, old(queue.items), me)
    {
      w := null;
      if owner == Some(me.id) {
        w := CallFirst(queue);
        if w != null {
          owner := Some(w.id);
          count := 1;
          return;
        }
        locked := false;
        owner := None;
        count := 0;
      } else {
        var _ := DropOut(queue, me);
      }
    }
  }

  /** The methods as two threads use them: `a` passes a fair mutex on to `b`, which came second. */
  method PassOver(a: Waiter, b: Waiter) returns (m: Mutex)
    requires a.id != b.id
    modifies a, b
    ensures m.Valid() && m.View() == Mx(true, true, true, Some(b.id), 1, [], {b.id})
  {
    m := new Mutex();
    assert |m.queue.items| == |m.View().waitq| == 0;
    var _ := m.SetFair(true);
    var va := m.TryAcquire(a, false);
    var vb := m.TryAcquire(b, false);
    assert va == Acquired && vb == Queued && m.View().waitq == [b.id];
    var _, w := m.Unlock(a);
    assert w != null && w.id == b.id;
    vb := m.AfterWait(b, false, false);
  }
}

/**
 Any number of threads on any number of schedulers using one mutex: the critical sections above,
 interleaved with the directed-wakeup protocol that carries a dequeued waiter back to its recheck.
 `interrupts` says whether extra events and cancellation may end a wait early. A thread may be
 resumed for no reason at any time.
 */
module MutexProtocol {
  import opened Basics
  import opened MutexSections
  import Wakeup

  const MX := Wakeup.Prim(Wakeup.MutexEvent, 0)

  /**
   `ticket`, `next` and `grants` only record history: the number a thread drew when its call of
   pth_mutex_acquire first parked, and the numbers in the order of the hand-offs. So does `depth`: the
   acquisitions a thread was told have succeeded, less the releases it was told have.
   */
  datatype State = State(
    w: Wakeup.World, mx: Mx,
    ticket: Tid -> int, next: int, grants: seq<int>, depth: Tid -> int)
  {
    function Depth(t: Tid): int { depth(t) }
  }

  datatype Step =
    | Other(ws: Wakeup.Step)
    | Acquire(t: Tid, tryOnly: bool)
    | Resume(t: Tid, extra: bool)
    | CancelWait(t: Tid)
    | Unlock(t: Tid)
    | SetFair(t: Tid, on: bool)

  ghost predicate Enabled(s: State, step: Step, interrupts: bool) {
    match step
    case Other(ws) => Wakeup.Elsewhere(s.w, ws, MX) && Wakeup.Enabled(s.w, ws)
    case Acquire(t, tryOnly) => s.w.Executes(t) && s.w.phase(t) == Wakeup.Active
    case Resume(t, extra) => s.w.Executes(t) && s.w.phase(t) == Wakeup.Awake(MX) && (extra ==> interrupts)
    case CancelWait(t) =>
      interrupts && s.w.WaitsOn(t, MX) && Wakeup.Enabled(s.w, Wakeup.Departure(s.w, t))
    case Unlock(t) =>
      s.w.Executes(t) && (s.w.phase(t).Active? || (s.w.phase(t).Parked? && s.w.phase(t).p != MX))
    case SetFair(t, on) => s.w.Executes(t) && s.w.phase(t) == Wakeup.Active
  }

  function Wake(s: State, sid: Sid, woken: Option<Tid>): Wakeup.World
    requires woken.Some? ==> s.w.posts(sid) == {} && s.w.queue(MX) != []
  {
    if woken.Some? then Wakeup.Apply(s.w, Wakeup.Shift(sid, MX, 1)) else s.w
  }

  function Enqueue(s: State, t: Tid, mx: Mx, v: Verdict): State
    requires v == Queued ==> Wakeup.Enabled(s.w, Wakeup.Park(t, MX))
  {
    s.(mx := mx, w := if v == Queued then Wakeup.Apply(s.w, Wakeup.Park(t, MX)) else s.w)
  }

  function DrawTicket(s: State, t: Tid, v: Verdict): State {
    if v == Queued then s.(ticket := Set(s.ticket, t, s.next), next := s.next + 1) else s
  }

  /** What the caller is told counts: an acquisition that succeeds, or a release that does. */
  function Told(s: State, t: Tid, v: Verdict): State {
    if v == Acquired || v == Recursive then s.(depth := Set(s.depth, t, s.depth(t) + 1)) else s
  }

  function ToldReleased(s: State, t: Tid, r: Release): State {
    if r == Released then s.(depth := Set(s.depth, t, s.depth(t) - 1)) else s
  }

  function HandOver(s: State, sid: Sid, mx: Mx, woken: Option<Tid>): State
    requires woken.Some? ==> s.w.posts(sid) == {} && s.w.queue(MX) != []
  {
    s.(mx := mx, w := Wake(s, sid, woken),
       grants := if woken.Some? && mx.owner == woken then s.grants + [s.ticket(woken.value)] else s.grants)
  }

  function Apply(s: State, step: Step, interrupts: bool): State
    requires s.mx.waitq == s.w.queue(MX)
    requires Enabled(s, step, interrupts)
  {
    match step
    case Other(ws) => s.(w := Wakeup.Apply(s.w, ws))
    case Acquire(t, tryOnly) =>
      var (mx, v) := Enter(s.mx, t, tryOnly);
      Enqueue(DrawTicket(Told(s, t, v), t, v), t, mx, v)
    case Resume(t, extra) =>
      var pending := Wakeup.Wake(t, Wakeup.MutexEvent) !in s.w.occurred;
      var (mx, v) := Recheck(s.mx, t, extra, pending);
      Enqueue(Told(s, t, v).(w := Wakeup.Apply(s.w, Wakeup.Step.Leave(t))), t, mx, v)
    case CancelWait(t) =>
      var (mx, woken) := Cleanup(s.mx, t);
      var w1 := Wakeup.Apply(s.w, Wakeup.Departure(s.w, t));
      if woken.Some? && w1.queue(MX) != [] then HandOver(s.(w := w1), s.w.home(t), mx, woken)
      else s.(w := w1, mx := mx)
    case Unlock(t) =>
      var (mx, r, woken) := Leave(s.mx, t);
      HandOver(ToldReleased(s, t, r), s.w.home(t), mx, woken)
    case SetFair(t, on) => s.(mx := s.mx.(fair := on))
  }

  ghost predicate Init(s: State) {
    && Wakeup.Init(s.w)
    && s.mx.initialized && !s.mx.locked && s.mx.owner == None && s.mx.count == 0
    && s.mx.waitq == [] && s.mx.rings == {}
    && s.grants == [] && forall t {:trigger s.Depth(t)} {:trigger s.depth(t)} :: s.Depth(t) == 0
  }

  /** Mutual exclusion and where the mutex node is linked; holds in both modes, however they are switched. */
  ghost predicate Exclusive(s: State) {
    && s.mx.initialized
    && (s.mx.locked <==> s.mx.owner.Some?)
    && (if s.mx.locked then s.mx.count >= 1 else s.mx.count == 0)
    && match s.mx.owner
       case None => s.mx.rings == {}
       case Some(t) =>
         if s.w.WaitsOn(t, MX) then s.mx.rings == {} && s.mx.count == 1 && t !in s.mx.waitq
         else s.mx.rings == {t}
  }

  ghost predicate Linked(s: State) {
    Wakeup.Inv(s.w) && s.mx.waitq == s.w.queue(MX)
  }

  ghost predicate Core(s: State) {
    Linked(s) && Exclusive(s)
  }

  lemma AcquireKeepsCore(s: State, t: Tid, tryOnly: bool, interrupts: bool)
    requires Core(s) && Enabled(s, Acquire(t, tryOnly), interrupts)
    ensures Core(Apply(s, Acquire(t, tryOnly), interrupts))
  {
    if Enter(s.mx, t, tryOnly).1 == Queued {
      Wakeup.ParkFrame(s.w, t, MX);
    }
  }

  lemma ResumeKeepsLinks(s: State, t: Tid, extra: bool, interrupts: bool)
    requires Core(s) && Enabled(s, Resume(t, extra), interrupts)
    ensures Linked(Apply(s, Resume(t, extra), interrupts))
  {
    Wakeup.DepartFrame(s.w, t, MX);
    var w1 := Wakeup.Apply(s.w, Wakeup.Step.Leave(t));
    var pending := Wakeup.Wake(t, Wakeup.MutexEvent) !in s.w.occurred;
    if Recheck(s.mx, t, extra, pending).1 == Queued {
      Wakeup.ParkFrame(w1, t, MX);
    }
  }

  lemma ResumeMovesOnlyItself(s: State, t: Tid, extra: bool, interrupts: bool, u: Tid)
    requires Linked(s) && Enabled(s, Resume(t, extra), interrupts)
    ensures var s', pending := Apply(s, Resume(t, extra), interrupts), Wakeup.Wake(t, Wakeup.MutexEvent) !in s.w.occurred;
            var (mx, v) := Recheck(s.mx, t, extra, pending);
            s'.mx == mx && (s'.w.WaitsOn(u, MX) <==> if u == t then v == Queued else s.w.WaitsOn(u, MX))
  {
  }

  lemma ResumeKeepsExclusion(s: State, t: Tid, extra: bool, interrupts: bool)
    requires Core(s) && Enabled(s, Resume(t, extra), interrupts)
    ensures Exclusive(Apply(s, Resume(t, extra), interrupts))
  {
    ResumeMovesOnlyItself(s, t, extra, interrupts, t);
    if s.mx.owner.Some? {
      ResumeMovesOnlyItself(s, t, extra, interrupts, s.mx.owner.value);
    }
  }

  lemma ResumeKeepsCore(s: State, t: Tid, extra: bool, interrupts: bool)
    requires Core(s) && Enabled(s, Resume(t, extra), interrupts)
    ensures Core(Apply(s, Resume(t, extra), interrupts))
  {
    ResumeKeepsLinks(s, t, extra, interrupts);
    ResumeKeepsExclusion(s, t, extra, interrupts);
  }

  lemma CancelKeepsCore(s: State, t: Tid, interrupts: bool)
    requires Core(s) && Enabled(s, CancelWait(t), interrupts)
    ensures Core(Apply(s, CancelWait(t), interrupts))
  {
    Wakeup.DepartFrame(s.w, t, MX);
    var w1 := Wakeup.Apply(s.w, Wakeup.Departure(s.w, t));
    if Cleanup(s.mx, t).1.Some? {
      Wakeup.ShiftFrame(w1, s.w.home(t), MX, 1);
    }
  }

  lemma UnlockKeepsCore(s: State, t: Tid, interrupts: bool)
    requires Core(s) && Enabled(s, Unlock(t), interrupts)
    ensures Core(Apply(s, Unlock(t), interrupts))
  {
    if Leave(s.mx, t).2.Some? {
      Wakeup.ShiftFrame(s.w, s.w.home(t), MX, 1);
    }
  }

  lemma StepKeepsCore(s: State, step: Step, interrupts: bool)
    requires Core(s) && Enabled(s, step, interrupts)
    ensures Core(Apply(s, step, interrupts))
  {
    match step
    case Other(ws) => Wakeup.StepKeepsInv(s.w, ws); Wakeup.ElsewhereFrame(s.w, ws, MX);
    case Acquire(t, tryOnly) => AcquireKeepsCore(s, t, tryOnly, interrupts);
    case Resume(t, extra) => ResumeKeepsCore(s, t, extra, interrupts);
    case CancelWait(t) => CancelKeepsCore(s, t, interrupts);
    case Unlock(t) => UnlockKeepsCore(s, t, interrupts);
    case SetFair(t, on) =>
  }

  // Fair mode

  /** Whoever waits is queued or already owns the lock, and an open lock has no queue. */
  ghost predicate HandsOff(s: State) {
    && (!s.mx.locked ==> s.mx.waitq == [])
    && (forall t :: s.w.WaitsOn(t, MX) ==> t in s.mx.waitq || s.mx.owner == Some(t))
  }

  lemma HeadWaits(s: State)
    requires Core(s)
    ensures s.mx.waitq != [] ==> s.w.WaitsOn(s.mx.waitq[0], MX)
  {
    if s.mx.waitq != [] {
      assert s.mx.waitq[0] in s.w.queue(MX);
    }
  }

  /** The mutex is fair, or was when it was handed to the owner, who has not taken it yet. */
  predicate Handing(s: State) {
    s.mx.fair || (s.mx.owner.Some? && s.w.WaitsOn(s.mx.owner.value, MX))
  }

  /** Fair mode is switched on only while every waiter is queued or owns the lock, and an open lock has no queue. */
  ghost predicate Calm(s: State, step: Step) {
    step.SetFair? && step.on ==> HandsOff(s)
  }

  lemma StepKeepsHandsOff(s: State, step: Step, interrupts: bool)
    requires Core(s) && (Handing(s) ==> HandsOff(s)) && Enabled(s, step, interrupts) && Calm(s, step)
    ensures Handing(Apply(s, step, interrupts)) ==> HandsOff(Apply(s, step, interrupts))
  {
    match step
    case Other(ws) => Wakeup.ElsewhereFrame(s.w, ws, MX);
    case Acquire(t, tryOnly) =>
      if Enter(s.mx, t, tryOnly).1 == Queued {
        Wakeup.ParkFrame(s.w, t, MX);
      }
    case Resume(t, extra) => ResumeKeepsHandsOff(s, t, extra, interrupts);
    case CancelWait(t) => CancelKeepsHandsOff(s, t, interrupts);
    case Unlock(t) => UnlockKeepsHandsOff(s, t, interrupts);
    case SetFair(t, on) =>
  }

  lemma ResumeKeepsHandsOff(s: State, t: Tid, extra: bool, interrupts: bool)
    requires Core(s) && (Handing(s) ==> HandsOff(s)) && Enabled(s, Resume(t, extra), interrupts)
    ensures var s' := Apply(s, Resume(t, extra), interrupts); Handing(s') ==> HandsOff(s')
  {
    Wakeup.DepartFrame(s.w, t, MX);
    var pending := Wakeup.Wake(t, Wakeup.MutexEvent) !in s.w.occurred;
    if Recheck(s.mx, t, extra, pending).1 == Queued {
      Wakeup.ParkFrame(Wakeup.Apply(s.w, Wakeup.Step.Leave(t)), t, MX);
    }
  }

  lemma UnlockKeepsHandsOff(s: State, t: Tid, interrupts: bool)
    requires Core(s) && (Handing(s) ==> HandsOff(s)) && Enabled(s, Unlock(t), interrupts)
    ensures var s' := Apply(s, Unlock(t), interrupts); Handing(s') ==> HandsOff(s')
  {
    if Leave(s.mx, t).2.Some? {
      Wakeup.ShiftFrame(s.w, s.w.home(t), MX, 1);
    }
  }

  lemma CancelKeepsHandsOff(s: State, t: Tid, interrupts: bool)
    requires Core(s) && (Handing(s) ==> HandsOff(s)) && Enabled(s, CancelWait(t), interrupts)
    ensures var s' := Apply(s, CancelWait(t), interrupts); Handing(s') ==> HandsOff(s')
  {
    Wakeup.DepartFrame(s.w, t, MX);
    if Cleanup(s.mx, t).1.Some? {
      var w1 := Wakeup.Apply(s.w, Wakeup.Departure(s.w, t));
      Wakeup.ShiftFrame(w1, s.w.home(t), MX, 1);
    }
  }

  // Barging mode

  /** An open lock with a queue always has a dequeued waiter that has not yet come back for it. */
  ghost predicate Unstranded(s: State) {
    !s.mx.locked && s.mx.waitq != [] ==> exists t :: s.w.WaitsOn(t, MX) && t !in s.mx.waitq
  }

  lemma StepKeepsUnstranded(s: State, step: Step)
    requires Core(s) && Unstranded(s) && Enabled(s, step, false)
    ensures Unstranded(Apply(s, step, false))
  {
    match step
    case Other(ws) => Wakeup.ElsewhereFrame(s.w, ws, MX);
    case Acquire(t, tryOnly) =>
      if Enter(s.mx, t, tryOnly).1 == Queued {
        Wakeup.ParkFrame(s.w, t, MX);
      }
    case Resume(t, extra) =>
    case CancelWait(t) =>
    case Unlock(t) =>
      if Leave(s.mx, t).2.Some? {
        Wakeup.ShiftFrame(s.w, s.w.home(t), MX, 1);
        var w' := Wakeup.Apply(s.w, Wakeup.Shift(s.w.home(t), MX, 1));
        assert w'.WaitsOn(s.mx.waitq[0], MX);
      }
    case SetFair(t, on) =>
  }

  // Recursion

  /** Whoever has taken the mutex was told so as often as the mutex counts, and nobody else was. */
  ghost predicate Counted(s: State) {
    forall t {:trigger s.Depth(t)} {:trigger s.depth(t)} :: s.Depth(t) == if t in s.mx.rings then s.mx.count else 0
  }

  lemma StepKeepsCounted(s: State, step: Step, interrupts: bool)
    requires Core(s) && Counted(s) && Enabled(s, step, interrupts)
    ensures Counted(Apply(s, step, interrupts))
  {
    var s' := Apply(s, step, interrupts);
    forall t ensures s'.Depth(t) == if t in s'.mx.rings then s'.mx.count else 0 {
      assert s.Depth(t) == if t in s.mx.rings then s.mx.count else 0;
      StepKeepsCountedAt(s, step, interrupts, t);
    }
  }

  ghost predicate CountedAt(s: State, u: Tid) {
    s.Depth(u) == if u in s.mx.rings then s.mx.count else 0
  }

  lemma AcquireKeepsCounted(s: State, t: Tid, tryOnly: bool, interrupts: bool, u: Tid)
    requires Core(s) && CountedAt(s, u) && Enabled(s, Acquire(t, tryOnly), interrupts)
    ensures CountedAt(Apply(s, Acquire(t, tryOnly), interrupts), u)
  {
  }

  lemma ResumeKeepsCounted(s: State, t: Tid, extra: bool, interrupts: bool, u: Tid)
    requires Core(s) && CountedAt(s, u) && Enabled(s, Resume(t, extra), interrupts)
    ensures CountedAt(Apply(s, Resume(t, extra), interrupts), u)
  {
  }

  lemma UnlockKeepsCounted(s: State, t: Tid, interrupts: bool, u: Tid)
    requires Core(s) && CountedAt(s, u) && Enabled(s, Unlock(t), interrupts)
    ensures CountedAt(Apply(s, Unlock(t), interrupts), u)
  {
  }

  lemma StepKeepsCountedAt(s: State, step: Step, interrupts: bool, u: Tid)
    requires Core(s) && CountedAt(s, u) && Enabled(s, step, interrupts)
    ensures CountedAt(Apply(s, step, interrupts), u)
  {
    match step
    case Other(ws) =>
    case Acquire(t, tryOnly) => AcquireKeepsCounted(s, t, tryOnly, interrupts, u);
    case Resume(t, extra) => ResumeKeepsCounted(s, t, extra, interrupts, u);
    case CancelWait(t) =>
    case Unlock(t) => UnlockKeepsCounted(s, t, interrupts, u);
    case SetFair(t, on) =>
  }

  // Runs

  ghost predicate Next(s: State, s': State, interrupts: bool) {
    && s.mx.waitq == s.w.queue(MX)
    && exists step :: Enabled(s, step, interrupts) && s' == Apply(s, step, interrupts)
  }

  ghost predicate IsRun(run: seq<State>, interrupts: bool) {
    && run != [] && Init(run[0])
    && forall i :: 0 <= i < |run| - 1 ==> Next(run[i], run[i + 1], interrupts)
  }

  ghost predicate Good(s: State, interrupts: bool) {
    Core(s) && Counted(s) && (!interrupts ==> Unstranded(s))
  }

  lemma StepKeepsGood(s: State, step: Step, interrupts: bool)
    requires Good(s, interrupts) && Enabled(s, step, interrupts)
    ensures Good(Apply(s, step, interrupts), interrupts)
  {
    StepKeepsCore(s, step, interrupts);
    StepKeepsCounted(s, step, interrupts);
    if !interrupts {
      StepKeepsUnstranded(s, step);
    }
  }

  lemma {:induction false} RunsAreGood(run: seq<State>, interrupts: bool, i: nat)
    requires IsRun(run, interrupts) && i < |run|
    ensures Good(run[i], interrupts)
  {
    if i > 0 {
      RunsAreGood(run, interrupts, i - 1);
      assert Next(run[i - 1], run[i], interrupts);
      var step :| Enabled(run[i - 1], step, interrupts) && run[i] == Apply(run[i - 1], step, interrupts);
      StepKeepsGood(run[i - 1], step, interrupts);
    }
  }

  // What the runs guarantee

  /** At most one thread holds the mutex, it is the recorded owner, and only its ring links the node. */
  lemma MutualExclusion(run: seq<State>, interrupts: bool, i: nat)
    requires IsRun(run, interrupts) && i < |run|
    ensures var s := run[i];
            && (forall t, u :: t in s.mx.rings && u in s.mx.rings ==> t == u)
            && (forall t :: t in s.mx.rings <==> s.mx.owner == Some(t) && !s.w.WaitsOn(t, MX))
            && (s.mx.rings != {} ==> s.mx.locked && s.mx.count >= 1)
  {
    RunsAreGood(run, interrupts, i);
  }

  /** In every run the mutex counts the acquisitions its holder has been granted and not yet released. */
  lemma CountIsTheDepth(run: seq<State>, interrupts: bool, i: nat, t: Tid)
    requires IsRun(run, interrupts) && i < |run|
    ensures var s := run[i];
            && (s.mx.owner == Some(t) && !s.w.WaitsOn(t, MX) <==> s.Depth(t) > 0)
            && (s.Depth(t) > 0 ==> s.mx.count == s.Depth(t)) && s.Depth(t) >= 0
  {
    RunsAreGood(run, interrupts, i);
    assert run[i].Depth(t) == if t in run[i].mx.rings then run[i].mx.count else 0;
  }

  /** The mutex and its waiters are as they were. */
  ghost predicate KeepsMutex(s: State, s': State) { s'.mx == s.mx && s'.w == s.w }

  /**
   The mutex opens, or is handed on, at the release that matches the first acquisition: an earlier one
   leaves it held by the same thread and wakes nobody, and a thread that holds nothing changes nothing.
   */
  lemma OpensAtTheMatchingRelease(s: State, t: Tid, interrupts: bool)
    requires Good(s, interrupts) && Enabled(s, Unlock(t), interrupts)
    ensures var s' := Apply(s, Unlock(t), interrupts);
            && (s.Depth(t) == 0 ==> KeepsMutex(s, s') && s'.Depth(t) == 0 && Leave(s.mx, t).1 == if s.mx.locked then NotOwner else NotHeld)
            && (s.Depth(t) > 0 ==> s'.Depth(t) == s.Depth(t) - 1)
            && (s.Depth(t) > 1 ==> s'.mx == s.mx.(count := s.mx.count - 1) && s'.mx.owner == Some(t) && s'.w == s.w)
            && (s.Depth(t) == 1 ==> s'.mx.rings == {} && (s'.mx.locked <==> s.mx.fair && s.mx.waitq != []))
            && (s.Depth(t) == 1 && s'.mx.locked ==> s'.mx.owner == Some(s.mx.waitq[0]))
  {
    assert s.Depth(t) == if t in s.mx.rings then s.mx.count else 0;
  }

  /** Whoever leaves the queue at a release is the one its caller goes on to wake, and nobody else is. */
  lemma ReleaseWakesWhomItDequeues(s: State, t: Tid, interrupts: bool)
    requires Core(s) && Enabled(s, Unlock(t), interrupts)
    ensures var s', woken := Apply(s, Unlock(t), interrupts), Leave(s.mx, t).2;
            && s.mx.waitq == (if woken.Some? then [woken.value] else []) + s'.mx.waitq
            && s'.w.posts(s.w.home(t)) == if woken.Some? then {woken.value} else {}
  {
    if Leave(s.mx, t).2.Some? {
      assert s.w.queue(MX)[..1] == [s.mx.waitq[0]];
    }
  }

  lemma CancellationWakesWhomItDequeues(s: State, t: Tid, interrupts: bool)
    requires Core(s) && Enabled(s, CancelWait(t), interrupts)
    ensures var s', woken := Apply(s, CancelWait(t), interrupts), Cleanup(s.mx, t).1;
            && Remove(s.mx.waitq, t) == (if woken.Some? then [woken.value] else []) + s'.mx.waitq
            && s'.w.posts(s.w.home(t)) == if woken.Some? then {woken.value} else {}
  {
    Wakeup.DepartFrame(s.w, t, MX);
    if Cleanup(s.mx, t).1.Some? {
      assert s.w.queue(MX)[..1] == [s.mx.waitq[0]];
    }
  }

  /**
   A call of pth_mutex_acquire is granted at once exactly if the mutex is open or the caller's own; else
   a try changes nothing, and another call makes the caller the last of the queue.
   */
  lemma AcquireAnswers(s: State, t: Tid, tryOnly: bool, interrupts: bool)
    requires Good(s, interrupts) && Enabled(s, Acquire(t, tryOnly), interrupts)
    ensures var s' := Apply(s, Acquire(t, tryOnly), interrupts);
            && (s'.Depth(t) == s.Depth(t) + 1 <==> !s.mx.locked || s.Depth(t) > 0)
            && (s'.Depth(t) != s.Depth(t) + 1 && tryOnly ==>
                  KeepsMutex(s, s') && s'.Depth(t) == s.Depth(t) && Enter(s.mx, t, tryOnly).1 == Busy)
            && (s'.Depth(t) != s.Depth(t) + 1 && !tryOnly ==>
                  s'.mx == s.mx.(waitq := s.mx.waitq + [t]) && s'.w.phase(t) == Wakeup.Parked(MX))
  {
    assert s.Depth(t) == if t in s.mx.rings then s.mx.count else 0;
  }

  /** A resumed waiter is granted the mutex exactly if it was handed it, or it is open and the caller was not timed out. */
  lemma ResumeAnswers(s: State, t: Tid, extra: bool, interrupts: bool)
    requires Good(s, interrupts) && Enabled(s, Resume(t, extra), interrupts)
    ensures var s', pending := Apply(s, Resume(t, extra), interrupts), Wakeup.Wake(t, Wakeup.MutexEvent) !in s.w.occurred;
            var timedOut := extra && pending;
            && (s'.Depth(t) > 0 <==> s.mx.owner == Some(t) || (!s.mx.locked && !timedOut))
            && (s'.w.phase(t) == Wakeup.Parked(MX) <==> s.mx.owner.Some? && s.mx.owner != Some(t) && !timedOut)
            && (s'.w.phase(t) == Wakeup.Parked(MX) ==> s'.mx.waitq == Remove(s.mx.waitq, t) + [t])
            && (s'.w.phase(t) != Wakeup.Parked(MX) ==> s'.w.phase(t) == Wakeup.Active && t !in s'.mx.waitq)
            && (s'.w.phase(t) != Wakeup.Parked(MX) && s'.Depth(t) == 0 ==> Recheck(s.mx, t, extra, pending).1 == Interrupted)
  {
    assert s.Depth(t) == if t in s.mx.rings then s.mx.count else 0;
    ResumeKeepsCounted(s, t, extra, interrupts, t);
    RemoveKeepsNoDup(s.mx.waitq, t);
  }

  /** `b` got its owner from `a` fairly: nobody was waiting, or it was the first in line. */
  ghost predicate PassedFairly(a: State, b: State) {
    && (a.mx.owner == None ==> forall t :: !a.w.WaitsOn(t, MX))
    && (a.mx.owner.Some? ==>
          && a.mx.waitq != []
          && b.mx.owner == Some(a.mx.waitq[0])
          && b.mx.waitq == a.mx.waitq[1..])
  }

  /** Between the two states, a fair mutex got a new owner, and not fairly. */
  ghost predicate PassesUnfairly(a: State, b: State) {
    a.mx.fair && b.mx.owner.Some? && b.mx.owner != a.mx.owner && !PassedFairly(a, b)
  }

  lemma StepPassesFairly(s: State, step: Step, interrupts: bool)
    requires Core(s) && (s.mx.locked || forall t :: !s.w.WaitsOn(t, MX)) && Enabled(s, step, interrupts)
    ensures !PassesUnfairly(s, Apply(s, step, interrupts))
  {
    match step
    case CancelWait(t) => Wakeup.DepartFrame(s.w, t, MX);
    case _ =>
  }

  /** A run in which the policy is changed with care, if `calm`, or at any time */
  ghost predicate FairRun(run: seq<State>, interrupts: bool, calm: bool) {
    IsRun(run, interrupts) && (calm ==> forall i :: 0 <= i < |run| - 1 ==> CalmNext(run[i], run[i + 1], interrupts))
  }

  ghost predicate CalmNext(s: State, s': State, interrupts: bool) {
    && s.mx.waitq == s.w.queue(MX)
    && exists step :: Enabled(s, step, interrupts) && Calm(s, step) && s' == Apply(s, step, interrupts)
  }

  lemma {:induction false} CalmRunsHandOff(run: seq<State>, interrupts: bool, i: nat)
    requires FairRun(run, interrupts, true) && i < |run|
    ensures Core(run[i]) && (Handing(run[i]) ==> HandsOff(run[i]))
  {
    if i > 0 {
      CalmRunsHandOff(run, interrupts, i - 1);
      assert CalmNext(run[i - 1], run[i], interrupts);
      var step :| Enabled(run[i - 1], step, interrupts) && Calm(run[i - 1], step) && run[i] == Apply(run[i - 1], step, interrupts);
      StepKeepsCore(run[i - 1], step, interrupts);
      StepKeepsHandsOff(run[i - 1], step, interrupts);
    }
  }

  /**
   Fair mode, switched on with care: the lock is taken fresh only when nobody is waiting at all, and
   otherwise moves from its owner to the first waiter in line.
   */
  lemma FairOwnerPasses(run: seq<State>, interrupts: bool, i: nat)
    requires FairRun(run, interrupts, true) && i < |run| - 1
    ensures !PassesUnfairly(run[i], run[i + 1])
  {
    CalmRunsHandOff(run, interrupts, i);
    assert Next(run[i], run[i + 1], interrupts);
    var step :| Enabled(run[i], step, interrupts) && run[i + 1] == Apply(run[i], step, interrupts);
    if run[i].mx.fair {
      StepPassesFairly(run[i], step, interrupts);
    }
  }

  /** A fair open mutex has no queue. */
  lemma FairAndOpenIsIdle(run: seq<State>, interrupts: bool, i: nat)
    requires FairRun(run, interrupts, true) && i < |run| && run[i].mx.fair && !run[i].mx.locked
    ensures run[i].mx.waitq == [] && forall t :: !run[i].w.WaitsOn(t, MX)
  {
    CalmRunsHandOff(run, interrupts, i);
  }

  /**
   Switching fair mode on keeps its promise for whatever happens next exactly if the lock is held or
   nobody waits: else the thread that switched it on can take the lock past a waiter.
   */
  lemma SwitchKeepsPromiseExactlyWhen(s: State, t: Tid, interrupts: bool)
    requires Core(s) && Enabled(s, SetFair(t, true), interrupts)
    ensures var s' := Apply(s, SetFair(t, true), interrupts);
            (forall step :: Enabled(s', step, interrupts) ==> !PassesUnfairly(s', Apply(s', step, interrupts)))
            <==> s.mx.locked || forall u :: !s.w.WaitsOn(u, MX)
  {
    var s' := Apply(s, SetFair(t, true), interrupts);
    if s.mx.locked || forall u :: !s.w.WaitsOn(u, MX) {
      forall step | Enabled(s', step, interrupts) ensures !PassesUnfairly(s', Apply(s', step, interrupts)) {
        StepPassesFairly(s', step, interrupts);
      }
    } else {
      assert Enabled(s', Acquire(t, false), interrupts);
      assert PassesUnfairly(s', Apply(s', Acquire(t, false), interrupts));
    }
  }

  /** A thread that was handed the lock and is cancelled before taking it passes it on, in either mode. */
  lemma CancelledOwnerPassesOn(s: State, t: Tid)
    requires Good(s, true)
    requires Enabled(s, CancelWait(t), true) && s.mx.owner == Some(t)
    ensures var s' := Apply(s, CancelWait(t), true);
            && t !in s'.mx.rings && t !in s'.mx.waitq && !s'.w.WaitsOn(t, MX)
            && if s.mx.waitq == [] then !s'.mx.locked
               else s'.mx.owner == Some(s.mx.waitq[0]) && Coming(s', s.mx.waitq[0])
  {
    var s' := Apply(s, CancelWait(t), true);
    StepKeepsGood(s, CancelWait(t), true);
    Wakeup.DepartFrame(s.w, t, MX);
    if s.mx.waitq != [] {
      var u := s.mx.waitq[0];
      assert s.w.WaitsOn(u, MX) && u != t;
      assert s'.w.WaitsOn(u, MX);
      OwnerIsComing(s', u);
    }
  }

  /** `t` is on its way back to the mutex: already ready to run, or with its wakeup on the way. */
  ghost predicate Coming(s: State, t: Tid) {
    s.w.phase(t) == Wakeup.Awake(MX) || Wakeup.InTransit(s.w, t, MX)
  }

  /** A thread that owns the lock but has not taken it yet is on its way. */
  lemma OwnerIsComing(s: State, t: Tid)
    requires Core(s) && s.mx.owner == Some(t) && s.w.WaitsOn(t, MX)
    ensures Coming(s, t)
  {
  }

  /**
   Without interrupts, no run strands the queue: whenever the lock is open and threads are queued,
   a dequeued waiter is on its way to it, wakeup included.
   */
  lemma NoRunStrandsTheQueue(run: seq<State>, i: nat)
    requires IsRun(run, false) && i < |run| && !run[i].mx.locked && run[i].mx.waitq != []
    ensures var s := run[i]; exists t :: t !in s.mx.waitq && s.w.WaitsOn(t, MX) && Coming(s, t)
  {
    RunsAreGood(run, false, i);
    var s := run[i];
    var t :| s.w.WaitsOn(t, MX) && t !in s.mx.waitq;
    assert Coming(s, t);
  }

  // Building runs

  function Last(run: seq<State>): State
    requires run != []
  {
    run[|run| - 1]
  }

  /** Every thread alone on a scheduler of its own, and the mutex open. */
  function Fresh(fair: bool): State {
    State(Wakeup.World(t => t, t => Wakeup.Active, t => Wakeup.MutexEvent, {}, p => [], s => None, s => {}, s => []),
          Mx(true, false, fair, None, 0, [], {}), t => 0, 0, [], t => 0)
  }
}
