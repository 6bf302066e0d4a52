/**
 The read-write lock of pth_sync.c: its spinlock critical sections as functions on the lock state,
 the class whose methods compute them, and the protocol that runs them concurrently.
 */
module RwLockSections {
  import opened Basics

  datatype Op = Read | Write

  datatype Rw = Rw(
    initialized: bool, mode: Op, owner: Option<Tid>, readers: int,
    readq: seq<Tid>, writeq: seq<Tid>, writersWaiting: int)

  datatype Verdict = Acquired | Busy | Queued | Interrupted | Invalid

  datatype Release = Released | NotOwner | NotHeld | Uninitialized

  /** One turn of the loop in `pth_rwlock_acquire`: enter, give up, or park. */
  function Attempt(l: Rw, me: Tid, op: Op, tryOnly: bool): (Rw, Verdict) {
    if op == Write && l.owner == None && l.readers == 0 then
      (l.(owner := Some(me), mode := Write), Acquired)
    else if op == Read && l.owner == None && l.writersWaiting == 0 then
      (l.(readers := l.readers + 1, mode := Read), Acquired)
    else if tryOnly then (l, Busy)
    else if op == Write then
      (l.(writeq := l.writeq + [me], writersWaiting := l.writersWaiting + 1), Queued)
    else
      (l.(readq := l.readq + [me]), Queued)
  }

  function Enter(l: Rw, me: Tid, op: Op, tryOnly: bool): (Rw, Verdict) {
    if !l.initialized then (l, Invalid) else Attempt(l, me, op, tryOnly)
  }

  function Unpark(l: Rw, me: Tid, op: Op): Rw {
    if op == Write then
      l.(writeq := Remove(l.writeq, me),
         writersWaiting := if me in l.writeq then l.writersWaiting - 1 else l.writersWaiting)
    else l.(readq := Remove(l.readq, me))
  }

  /** The critical section after each return from `pth_wait`, up to the next return or park. */
  function Recheck(l: Rw, me: Tid, op: Op, extra: bool, pending: bool): (Rw, Verdict) {
    var l1 := Unpark(l, me, op);
    if extra && pending then (l1, Interrupted) else Attempt(l1, me, op, false)
  }

  /** The free lock wakes one writer, else every parked reader; the sequence is the order of wakeups. */
  function WakeNext(l: Rw): (Rw, seq<Tid>) {
    if l.writeq != [] then
      (l.(writeq := l.writeq[1..], writersWaiting := l.writersWaiting - 1), [l.writeq[0]])
    else (l.(readq := []), Reverse(l.readq))
  }

  function Leave(l: Rw, me: Tid): (Rw, Release, seq<Tid>) {
    if !l.initialized then (l, Uninitialized, [])
    else if l.owner.Some? then
      if l.owner != Some(me) then (l, NotOwner, [])
      else var (l1, woken) := WakeNext(l.(owner := None)); (l1, Released, woken)
    else if l.readers == 0 then (l, NotHeld, [])
    else if l.readers - 1 > 0 then (l.(readers := l.readers - 1), Released, [])
    else var (l1, woken) := WakeNext(l.(readers := l.readers - 1)); (l1, Released, woken)
  }

  /** A lock that was never initialized is refused and left alone. */
  lemma UninitializedIsRefused(l: Rw, me: Tid, op: Op, tryOnly: bool)
    requires !l.initialized
    ensures Enter(l, me, op, tryOnly) == (l, Invalid) && Leave(l, me) == (l, Uninitialized, [])
  {
  }

  // What a release wakes

  lemma {:induction false} ReverseHasAll<T>(s: seq<T>)
    ensures multiset(Reverse(s)) == multiset(s)
  {
    if s != [] {
      ReverseHasAll(s[1..]);
      assert s == [s[0]] + s[1..];
    }
  }

  lemma ShiftHasAll<T>(s: seq<T>)
    requires s != []
    ensures multiset(s) == multiset(s[1..]) + multiset([s[0]])
  {
    assert s == [s[0]] + s[1..];
  }

  ghost function Parked(l: Rw): multiset<Tid> { multiset(l.readq) + multiset(l.writeq) }

  lemma WakeNextHasAll(l: Rw)
    ensures Parked(l) == Parked(WakeNext(l).0) + multiset(WakeNext(l).1)
  {
    if l.writeq != [] {
      ShiftHasAll(l.writeq);
    } else {
      ReverseHasAll(l.readq);
    }
  }

  /** Whoever left a queue at a release is woken, once, and nobody else is. */
  lemma ReleaseWakesWhomItDequeues(l: Rw, me: Tid)
    ensures Parked(l) == Parked(Leave(l, me).0) + multiset(Leave(l, me).2)
  {
    if l.owner.Some? {
      WakeNextHasAll(l.(owner := None));
    } else {
      WakeNextHasAll(l.(readers := l.readers - 1));
    }
  }

  predicate Free(l: Rw) {
    l.owner == None && l.readers == 0
  }

  /**
   A release that frees the lock wakes the writer that came first, and leaves the readers parked; if no
   writer is parked it wakes all readers, the latest first. A release that does not free it wakes nobody.
   */
  lemma ReleaseWakesExactly(l: Rw, me: Tid)
    requires l.initialized && l.readers >= 0 && (l.owner.Some? <==> l.readers == 0)
    ensures var (l', r, woken) := Leave(l, me);
            && (!Free(l') ==> woken == [] && l'.readq == l.readq && l'.writeq == l.writeq)
            && (Free(l') && l.writeq != [] ==> woken == [l.writeq[0]] && l'.readq == l.readq)
            && (Free(l') && l.writeq == [] ==>
                  |woken| == |l.readq| && forall i :: 0 <= i < |woken| ==> woken[i] == l.readq[|l.readq| - 1 - i])
  {
  }

  class RwLock {
    var initialized: bool
    var mode: Op
    var owner: Option<Tid>
    var readers: int
    var readq: seq<Tid>
    var writeq: seq<Tid>
    var writersWaiting: int

    ghost function View(): Rw
      reads this
    {
      Rw(initialized, mode, owner, readers, readq, writeq, writersWaiting)
    }

    /** pth_rwlock_init */
    constructor ()
      ensures View() == Rw(true, Read, None, 0, [], [], 0)
    {
      initialized, mode, owner, readers := true, Read, None, 0;
      readq, writeq, writersWaiting := [], [], 0;
    }

    /** pth_rwlock_acquire, from taking the spinlock to returning or parking */
    method TryOnce(me: Tid, op: Op, tryOnly: bool) returns (v: Verdict)
      modifies this
      ensures (View(), v) == Attempt(old(View()), me, op, tryOnly)
    {
      if op == Write {
        if owner == None && readers == 0 {
          owner := Some(me);
          mode := Write;
          return Acquired;
        }
      } else if owner == None && writersWaiting == 0 {
        readers := readers + 1;
        mode := Read;
        return Acquired;
      }
      if tryOnly {
        return Busy;
      }
      if op == Write {
        writeq := writeq + [me];
        writersWaiting := writersWaiting + 1;
      } else {
        readq := readq + [me];
      }
      v := Queued;
    }

    method Acquire(me: Tid, op: Op, tryOnly: bool) returns (v: Verdict)
      modifies this
      ensures (View(), v) == Enter(old(View()), me, op, tryOnly)
    {
      if !initialized {
        return Invalid;
      }
      v := TryOnce(me, op, tryOnly);
    }

    /** pth_rwlock_acquire, after each return from pth_wait */
    method AfterWait(me: Tid, op: Op, extra: bool, pending: bool) returns (v: Verdict)
      modifies this
      ensures (View(), v) == Recheck(old(View()), me, op, extra, pending)
    {
      if op == Write {
        if me in writeq {
          writersWaiting := writersWaiting - 1;
        }
        writeq := Remove(writeq, me);
      } else {
        readq := Remove(readq, me);
      }
      if extra && pending {
        return Interrupted;
      }
      v := TryOnce(me, op, false);
    }

    /** pth_rwlock_release; `woken` lists the threads to wake after the spinlock is dropped */
    method Unlock(me: Tid) returns (r: Release, woken: seq<Tid>)
      modifies this
      ensures (View(), r, woken) == Leave(old(View()), me)
    {
      woken := [];
      if !initialized {
        return Uninitialized, [];
      }
      if owner.Some? {
        if owner != Some(me) {
          return NotOwner, [];
        }
        owner := None;
      } else {
        if readers == 0 {
          return NotHeld, [];
        }
        readers := readers - 1;
        if readers > 0 {
          return Released, [];
        }
      }
      r := Released;
      woken := ShiftNext();
    }

    /** Take the first writer, else all readers, off the queues; the readers are chained in reverse. */
    method ShiftNext() returns (woken: seq<Tid>)
      modifies this
      ensures (View(), woken) == WakeNext(old(View()))
    {
      woken := [];
      if writeq != [] {
        woken := [writeq[0]];
        writeq := writeq[1..];
        writersWaiting := writersWaiting - 1;
      } else {
        woken := ChainReaders();
      }
    }

    method ChainReaders() returns (chain: seq<Tid>)
      modifies this`readq
      ensures readq == [] && chain == Reverse(old(readq))
    {
      chain := [];
      while readq != []
        invariant Reverse(readq) + chain == Reverse(old(readq))
        decreases |readq|
      {
        assert Reverse(readq) + chain == Reverse(readq[1..]) + ([readq[0]] + chain);
        chain := [readq[0]] + chain;
        readq := readq[1..];
      }
    }

    /** pth_rwlock_wait_cleanup */
    method WaitCleanup(me: Tid)
      modifies this
      ensures View() == Unpark(Unpark(old(View()), me, Write), me, Read)
    {
      if me in writeq {
        writersWaiting := writersWaiting - 1;
      }
      writeq := Remove(writeq, me);
      readq := Remove(readq, me);
    }
  }
}

/** Any number of readers and writers on any number of schedulers using one read-write lock. */
module RwLockProtocol {
  import opened Basics
  import opened RwLockSections
  import Wakeup

  const RD := Wakeup.Prim(Wakeup.ReadEvent, 0)
  const WR := Wakeup.Prim(Wakeup.WriteEvent, 0)

  /**
   `holds` records the read locks that were granted and not yet released by their holder; `strays`
   counts the releases of a read lock by threads that held none, which the code accepts.
   */
  datatype State = State(w: Wakeup.World, lock: Rw, holds: multiset<Tid>, strays: nat)

  datatype Step =
    | Other(ws: Wakeup.Step)
    | Acquire(t: Tid, op: Op, tryOnly: bool)
    | Resume(t: Tid, op: Op, extra: bool)
    | CancelWait(t: Tid, op: Op)
    | Unlock(t: Tid)

  function PrimOf(op: Op): Wakeup.Prim { if op == Read then RD else WR }

  predicate Enabled(s: State, step: Step, interrupts: bool) {
    match step
    case Other(ws) => Wakeup.Elsewhere(s.w, ws, RD) && Wakeup.Elsewhere(s.w, ws, WR) && Wakeup.Enabled(s.w, ws)
    case Acquire(t, op, tryOnly) => s.w.Executes(t) && s.w.phase(t) == Wakeup.Active
    case Resume(t, op, extra) =>
      s.w.Executes(t) && s.w.phase(t) == Wakeup.Awake(PrimOf(op)) && (extra ==> interrupts)
    case CancelWait(t, op) =>
      interrupts && s.w.WaitsOn(t, PrimOf(op)) && Wakeup.Enabled(s.w, Wakeup.Departure(s.w, t))
    case Unlock(t) => s.w.Executes(t) && s.w.phase(t) == Wakeup.Active
  }

  function Enqueue(s: State, t: Tid, op: Op, lock: Rw, v: Verdict): State
    requires v == Queued ==> Wakeup.Enabled(s.w, Wakeup.Park(t, PrimOf(op)))
  {
    s.(lock := lock,
       w := if v == Queued then Wakeup.Apply(s.w, Wakeup.Park(t, PrimOf(op))) else s.w,
       holds := if v == Acquired && op == Read then s.holds + multiset{t} else s.holds)
  }

  predicate Agrees(s: State) {
    s.lock.readq == s.w.queue(RD) && s.lock.writeq == s.w.queue(WR)
  }

  function Apply(s: State, step: Step, interrupts: bool): State
    requires Agrees(s) && Enabled(s, step, interrupts)
  {
    match step
    case Other(ws) => s.(w := Wakeup.Apply(s.w, ws))
    case Acquire(t, op, tryOnly) =>
      var (lock, v) := Enter(s.lock, t, op, tryOnly);
      Enqueue(s, t, op, lock, v)
    case Resume(t, op, extra) =>
      var pending := Wakeup.Wake(t, PrimOf(op).kind) !in s.w.occurred;
      var (lock, v) := Recheck(s.lock, t, op, extra, pending);
      Enqueue(s.(w := Wakeup.Apply(s.w, Wakeup.Step.Leave(t))), t, op, lock, v)
    case CancelWait(t, op) =>
      s.(w := Wakeup.Apply(s.w, Wakeup.Departure(s.w, t)), lock := Unpark(Unpark(s.lock, t, Write), t, Read))
    case Unlock(t) =>
      var (lock, r, woken) := Leave(s.lock, t);
      var sid, shared := s.w.home(t), r == Released && s.lock.owner == None;
      s.(lock := lock,
         w := if woken == [] then s.w
              else if s.lock.writeq != [] then Wakeup.Apply(s.w, Wakeup.Shift(sid, WR, 1))
              else Wakeup.Apply(s.w, Wakeup.Shift(sid, RD, |s.lock.readq|)),
         holds := if shared then s.holds - multiset{t} else s.holds,
         strays := if shared && t !in s.holds then s.strays + 1 else s.strays)
  }

  ghost predicate Init(s: State) {
    && Wakeup.Init(s.w)
    && s.lock == Rw(true, Read, None, 0, [], [], 0)
    && s.holds == multiset{} && s.strays == 0
  }

  /** Never a writer together with readers; the counters count what they say they count. */
  ghost predicate Exclusive(s: State) {
    && s.lock.initialized
    && (s.lock.owner.Some? ==> s.lock.readers == 0)
    && s.lock.readers >= 0 && s.lock.readers + s.strays == |s.holds|
    && s.lock.writersWaiting == |s.lock.writeq|
    && (s.lock.owner.Some? ==> s.lock.mode == Write) && (s.lock.readers > 0 ==> s.lock.mode == Read)
  }

  ghost predicate Core(s: State) {
    Wakeup.Inv(s.w) && Agrees(s) && Exclusive(s)
  }

  /** A free lock has nobody queued, or a woken writer has not yet come back for it. */
  ghost predicate Unstranded(s: State) {
    Free(s.lock) ==>
      || (s.lock.readq == [] && s.lock.writeq == [])
      || exists t :: s.w.WaitsOn(t, WR) && t !in s.lock.writeq
  }

  lemma StepKeepsCore(s: State, step: Step, interrupts: bool)
    requires Core(s) && Enabled(s, step, interrupts)
    ensures Core(Apply(s, step, interrupts))
  {
    match step
    case Other(ws) =>
      Wakeup.StepKeepsInv(s.w, ws);
      Wakeup.ElsewhereFrame(s.w, ws, RD);
      Wakeup.ElsewhereFrame(s.w, ws, WR);
    case Acquire(t, op, tryOnly) => AcquireKeepsCore(s, t, op, tryOnly, interrupts);
    case Resume(t, op, extra) =>
      ResumeKeepsAgreement(s, t, op, extra, interrupts);
      ResumeKeepsExclusion(s, t, op, extra, interrupts);
    case CancelWait(t, op) => CancelKeepsCore(s, t, op, interrupts);
    case Unlock(t) => UnlockKeepsCore(s, t, interrupts);
  }

  lemma AcquireKeepsCore(s: State, t: Tid, op: Op, tryOnly: bool, interrupts: bool)
    requires Core(s) && Enabled(s, Acquire(t, op, tryOnly), interrupts)
    ensures Core(Apply(s, Acquire(t, op, tryOnly), interrupts))
  {
    if Enter(s.lock, t, op, tryOnly).1 == Queued {
      Wakeup.ParkFrame(s.w, t, PrimOf(op));
    }
  }

  lemma ResumeKeepsAgreement(s: State, t: Tid, op: Op, extra: bool, interrupts: bool)
    requires Core(s) && Enabled(s, Resume(t, op, extra), interrupts)
    ensures var s' := Apply(s, Resume(t, op, extra), interrupts); Wakeup.Inv(s'.w) && Agrees(s')
  {
    Wakeup.DepartFrame(s.w, t, PrimOf(op));
    var w1 := Wakeup.Apply(s.w, Wakeup.Step.Leave(t));
    var pending := Wakeup.Wake(t, PrimOf(op).kind) !in s.w.occurred;
    if Recheck(s.lock, t, op, extra, pending).1 == Queued {
      Wakeup.ParkFrame(w1, t, PrimOf(op));
    }
  }

  lemma ResumeKeepsExclusion(s: State, t: Tid, op: Op, extra: bool, interrupts: bool)
    requires Core(s) && Enabled(s, Resume(t, op, extra), interrupts)
    ensures Exclusive(Apply(s, Resume(t, op, extra), interrupts))
  {
    assert Unpark(s.lock, t, op).writersWaiting == |Unpark(s.lock, t, op).writeq|;
  }

  lemma CancelKeepsCore(s: State, t: Tid, op: Op, interrupts: bool)
    requires Core(s) && Enabled(s, CancelWait(t, op), interrupts)
    ensures Core(Apply(s, CancelWait(t, op), interrupts))
  {
    Wakeup.DepartFrame(s.w, t, PrimOf(op));
  }

  lemma ReleaseCounts(holds: multiset<Tid>, t: Tid)
    ensures |holds - multiset{t}| == if t in holds then |holds| - 1 else |holds|
  {
    if t !in holds {
      assert holds - multiset{t} == holds;
    }
  }

  lemma UnlockKeepsExclusion(s: State, t: Tid, interrupts: bool)
    requires Agrees(s) && Exclusive(s) && Enabled(s, Unlock(t), interrupts)
    ensures Exclusive(Apply(s, Unlock(t), interrupts))
  {
    ReleaseCounts(s.holds, t);
  }

  lemma WakeKeepsAgreement(s: State, t: Tid)
    requires Core(s) && s.w.posts(s.w.home(t)) == {} && Leave(s.lock, t).2 != []
    ensures var w := if s.lock.writeq != [] then Wakeup.Apply(s.w, Wakeup.Shift(s.w.home(t), WR, 1))
                     else Wakeup.Apply(s.w, Wakeup.Shift(s.w.home(t), RD, |s.lock.readq|));
            Wakeup.Inv(w) && Leave(s.lock, t).0.readq == w.queue(RD) && Leave(s.lock, t).0.writeq == w.queue(WR)
  {
    if s.lock.writeq != [] {
      Wakeup.ShiftFrame(s.w, s.w.home(t), WR, 1);
    } else {
      Wakeup.ShiftFrame(s.w, s.w.home(t), RD, |s.lock.readq|);
    }
  }

  lemma NobodyWoken(l: Rw, t: Tid)
    requires Leave(l, t).2 == []
    ensures Leave(l, t).0.readq == l.readq && Leave(l, t).0.writeq == l.writeq
  {
    assert |Reverse(l.readq)| == |l.readq|;
  }

  lemma UnlockKeepsCore(s: State, t: Tid, interrupts: bool)
    requires Core(s) && Enabled(s, Unlock(t), interrupts)
    ensures Core(Apply(s, Unlock(t), interrupts))
  {
    UnlockKeepsExclusion(s, t, interrupts);
    if Leave(s.lock, t).2 != [] {
      WakeKeepsAgreement(s, t);
    } else {
      NobodyWoken(s.lock, t);
    }
  }

  lemma StepKeepsUnstranded(s: State, step: Step)
    requires Core(s) && Unstranded(s) && Enabled(s, step, false)
    ensures Unstranded(Apply(s, step, false))
  {
    match step
    case Other(ws) =>
      Wakeup.ElsewhereFrame(s.w, ws, RD);
      Wakeup.ElsewhereFrame(s.w, ws, WR);
    case Acquire(t, op, tryOnly) =>
      if Enter(s.lock, t, op, tryOnly).1 == Queued {
        Wakeup.ParkFrame(s.w, t, PrimOf(op));
      }
    case Resume(t, op, extra) => ResumeKeepsUnstranded(s, t, op);
    case CancelWait(t, op) =>
    case Unlock(t) => UnlockKeepsUnstranded(s, t);
  }

  lemma ResumeKeepsUnstranded(s: State, t: Tid, op: Op)
    requires Core(s) && Unstranded(s) && Enabled(s, Resume(t, op, false), false)
    ensures Unstranded(Apply(s, Resume(t, op, false), false))
  {
    var s' := Apply(s, Resume(t, op, false), false);
    Wakeup.DepartFrame(s.w, t, PrimOf(op));
    if Free(s'.lock) {
      assert op == Read && s.lock.writeq != [];
      var u :| s.w.WaitsOn(u, WR) && u !in s.lock.writeq;
      assert s'.w.WaitsOn(u, WR);
    }
  }

  lemma UnlockKeepsUnstranded(s: State, t: Tid)
    requires Core(s) && Unstranded(s) && Enabled(s, Unlock(t), false)
    ensures Unstranded(Apply(s, Unlock(t), false))
  {
    var s' := Apply(s, Unlock(t), false);
    if Leave(s.lock, t).2 != [] && s.lock.writeq != [] {
      Wakeup.ShiftFrame(s.w, s.w.home(t), WR, 1);
      assert s'.w.WaitsOn(s.lock.writeq[0], WR);
    }
  }

  // Runs

  ghost predicate Next(s: State, s': State, interrupts: bool) {
    Agrees(s) && exists step :: Enabled(s, step, interrupts) && s' == Apply(s, step, interrupts)
  }

  ghost predicate IsRun(run: seq<State>, interrupts: bool) {
    && run != [] && Init(run[0])
    && forall i :: 0 <= i < |run| - 1 ==> Next(run[i], run[i + 1], interrupts)
  }

  ghost predicate Good(s: State, interrupts: bool) {
    Core(s) && (!interrupts ==> Unstranded(s))
  }

  lemma StepKeepsGood(s: State, step: Step, interrupts: bool)
    requires Good(s, interrupts) && Enabled(s, step, interrupts)
    ensures Good(Apply(s, step, interrupts), interrupts)
  {
    StepKeepsCore(s, step, interrupts);
    if !interrupts {
      StepKeepsUnstranded(s, step);
    }
  }

  lemma {:induction false} RunsAreGood(run: seq<State>, interrupts: bool, i: nat)
    requires IsRun(run, interrupts) && i < |run|
    ensures Good(run[i], interrupts)
  {
    if i > 0 {
      RunsAreGood(run, interrupts, i - 1);
      assert Next(run[i - 1], run[i], interrupts);
      var step :| Enabled(run[i - 1], step, interrupts) && run[i] == Apply(run[i - 1], step, interrupts);
      StepKeepsGood(run[i - 1], step, interrupts);
    }
  }

  /**
   In every run the counters are exact up to stray releases, and a writer shares the lock with exactly
   as many read holds as there were strays: with none if everybody released only what they held.
   */
  lemma WritersExcludeReaders(run: seq<State>, interrupts: bool, i: nat)
    requires IsRun(run, interrupts) && i < |run|
    ensures var s := run[i];
            && s.lock.readers == |s.holds| - s.strays && s.lock.writersWaiting == |s.lock.writeq|
            && (s.lock.owner.Some? ==> |s.holds| == s.strays && (s.holds == multiset{} <==> s.strays == 0))
  {
    RunsAreGood(run, interrupts, i);
  }

  lemma ReadGrantNeedsNoWriter(s: State, step: Step, interrupts: bool)
    requires Core(s) && Enabled(s, step, interrupts)
    requires |Apply(s, step, interrupts).holds| > |s.holds|
    ensures s.lock.owner == None && s.lock.writersWaiting == 0
  {
  }

  /** A read lock is granted only while no writer holds the lock or is parked for it. */
  lemma ReadersYieldToParkedWriters(run: seq<State>, interrupts: bool, i: nat)
    requires IsRun(run, interrupts) && i < |run| - 1
    requires |run[i + 1].holds| > |run[i].holds|
    ensures run[i].lock.owner == None && run[i].lock.writeq == []
  {
    RunsAreGood(run, interrupts, i);
    assert Next(run[i], run[i + 1], interrupts);
    var step :| Enabled(run[i], step, interrupts) && run[i + 1] == Apply(run[i], step, interrupts);
    ReadGrantNeedsNoWriter(run[i], step, interrupts);
  }

  /**
   Without interrupts, a free lock with anybody queued has a woken writer that is ready to run or
   whose wakeup is on its way.
   */
  lemma NoRunStrandsTheQueues(run: seq<State>, i: nat)
    requires IsRun(run, false) && i < |run| && Free(run[i].lock)
    requires run[i].lock.readq != [] || run[i].lock.writeq != []
    ensures var s := run[i];
            exists t :: t !in s.lock.writeq && s.w.WaitsOn(t, WR)
                        && (s.w.phase(t) == Wakeup.Awake(WR) || Wakeup.InTransit(s.w, t, WR))
  {
    RunsAreGood(run, false, i);
    var s := run[i];
    var t :| s.w.WaitsOn(t, WR) && t !in s.lock.writeq;
    assert s.w.phase(t) == Wakeup.Awake(WR) || Wakeup.InTransit(s.w, t, WR);
  }

  // What callers are told

  lemma SameMembers<T>(a: seq<T>, b: seq<T>)
    requires multiset(a) == multiset(b)
    ensures (set x | x in a) == set x | x in b
  {
    forall x ensures x in a <==> x in b {
      assert x in a <==> x in multiset(a);
      assert x in b <==> x in multiset(b);
    }
  }

  /** Those a release dequeues, in queue order. */
  function Dequeued(l: Rw): seq<Tid> { if l.writeq != [] then l.writeq[..1] else l.readq }

  lemma WakeNextWakes(l: Rw)
    ensures multiset(WakeNext(l).1) == multiset(Dequeued(l))
  {
    if l.writeq != [] {
      assert l.writeq[..1] == [l.writeq[0]];
    } else {
      ReverseHasAll(l.readq);
    }
  }

  lemma WokenAreDequeued(l: Rw, t: Tid)
    requires Leave(l, t).2 != []
    ensures multiset(Leave(l, t).2) == multiset(Dequeued(l))
  {
    if l.owner.Some? {
      WakeNextWakes(l.(owner := None));
    } else {
      WakeNextWakes(l.(readers := l.readers - 1));
    }
  }

  /** The threads a release dequeues are exactly those its caller goes on to wake. */
  lemma ReleasePostsTheWoken(s: State, t: Tid, interrupts: bool)
    requires Core(s) && Enabled(s, Unlock(t), interrupts)
    ensures Apply(s, Unlock(t), interrupts).w.posts(s.w.home(t)) == set x | x in Leave(s.lock, t).2
  {
    var woken := Leave(s.lock, t).2;
    if woken != [] {
      WokenAreDequeued(s.lock, t);
      SameMembers(woken, Dequeued(s.lock));
      assert s.lock.readq[..|s.lock.readq|] == s.lock.readq;
    }
  }

  /** What a caller holds after a call, against what it may hold: the whole lock, or a share of it. */
  predicate Admissible(l: Rw, op: Op) {
    l.owner == None && if op == Write then l.readers == 0 else l.writeq == []
  }

  predicate Granted(s: State, s': State, t: Tid, op: Op) {
    if op == Write then s'.lock.owner == Some(t) && s.lock.owner == None else s'.holds == s.holds + multiset{t}
  }

  /**
   A call is granted at once exactly if a writer finds the lock free, or a reader finds no writer inside
   or parked; else a try changes nothing and another call makes the caller the last of its queue.
   */
  lemma AcquireAnswers(s: State, t: Tid, op: Op, tryOnly: bool, interrupts: bool)
    requires Core(s) && Enabled(s, Acquire(t, op, tryOnly), interrupts)
    ensures var s' := Apply(s, Acquire(t, op, tryOnly), interrupts);
            && (Granted(s, s', t, op) <==> Admissible(s.lock, op))
            && (Granted(s, s', t, op) ==> s'.w == s.w && s'.lock.readq == s.lock.readq && s'.lock.writeq == s.lock.writeq)
            && (!Granted(s, s', t, op) && tryOnly ==> s' == s && Enter(s.lock, t, op, tryOnly).1 == Busy)
            && (!Granted(s, s', t, op) && !tryOnly ==>
                  && s'.w.phase(t) == Wakeup.Parked(PrimOf(op)) && s'.holds == s.holds && s'.lock.owner == s.lock.owner
                  && s'.w.queue(PrimOf(op)) == s.w.queue(PrimOf(op)) + [t])
  {
    assert op == Read ==> |s.holds + multiset{t}| == |s.holds| + 1;
  }

  /** A woken waiter is off its queue; it is granted the lock by the same rule unless it was timed out, and parks again otherwise. */
  lemma ResumeAnswers(s: State, t: Tid, op: Op, extra: bool, interrupts: bool)
    requires Core(s) && Enabled(s, Resume(t, op, extra), interrupts)
    ensures var s', pending := Apply(s, Resume(t, op, extra), interrupts), Wakeup.Wake(t, PrimOf(op).kind) !in s.w.occurred;
            var timedOut, l := extra && pending, Unpark(s.lock, t, op);
            && (Granted(s, s', t, op) <==> !timedOut && Admissible(l, op))
            && (s'.w.phase(t) == Wakeup.Parked(PrimOf(op)) <==> !timedOut && !Admissible(l, op))
            && (s'.w.phase(t) != Wakeup.Parked(PrimOf(op)) ==> s'.w.phase(t) == Wakeup.Active && t !in s'.w.queue(PrimOf(op)))
            && (timedOut ==> Recheck(s.lock, t, op, extra, pending).1 == Interrupted)
  {
    assert op == Read ==> |s.holds + multiset{t}| == |s.holds| + 1;
    RemoveKeepsNoDup(s.w.queue(PrimOf(op)), t);
  }

  /** A release is refused exactly if somebody else has the lock for writing, or nobody has it; else it takes one hold back. */
  lemma ReleaseAnswers(s: State, t: Tid, interrupts: bool)
    requires Core(s) && Enabled(s, Unlock(t), interrupts)
    ensures var s', r := Apply(s, Unlock(t), interrupts), Leave(s.lock, t).1;
            && (r == NotOwner <==> s.lock.owner.Some? && s.lock.owner != Some(t)) && (r == NotHeld <==> Free(s.lock))
            && (r != Released ==> s' == s)
            && (r == Released && s.lock.owner.Some? ==> Free(s'.lock) && s'.holds == s.holds)
            && (r == Released && s.lock.owner == None ==> s'.lock.readers == s.lock.readers - 1 && s'.holds == s.holds - multiset{t})
  {
  }

  // Stranding

  function Last(run: seq<State>): State
    requires run != []
  {
    run[|run| - 1]
  }

  lemma Go(run: seq<State>, step: Step, interrupts: bool) returns (longer: seq<State>)
    requires IsRun(run, interrupts) && Enabled(Last(run), step, interrupts)
    ensures Agrees(Last(run)) && IsRun(longer, interrupts) && Last(longer) == Apply(Last(run), step, interrupts)
  {
    RunsAreGood(run, interrupts, |run| - 1);
    longer := run + [Apply(Last(run), step, interrupts)];
    forall i | 0 <= i < |longer| - 1 ensures Next(longer[i], longer[i + 1], interrupts) {
      assert i < |run| - 1 ==> Next(run[i], run[i + 1], interrupts);
      assert i == |run| - 1 ==> longer[i] == Last(run);
    }
  }

  /** A writer with a scheduler of its own finds the lock taken and blocks. */
  lemma GoQueue(run: seq<State>, t: Tid) returns (longer: seq<State>)
    requires IsRun(run, true)
    requires var s := Last(run);
             && s.w.phase(t) == Wakeup.Active && s.w.Idle(s.w.home(t)) && s.lock.initialized && s.lock.owner.Some?
    ensures IsRun(longer, true)
    ensures var s, s' := Last(run), Last(longer);
            && s'.w.home == s.w.home && s'.w.posts == s.w.posts
            && (forall u :: s'.w.phase(u) == if u == t then Wakeup.Waiting(WR) else s.w.phase(u))
            && (forall r :: s'.w.current(r) == if r == s.w.home(t) then None else s.w.current(r))
            && s'.w.occurred <= s.w.occurred && Wakeup.Wake(t, Wakeup.WriteEvent) !in s'.w.occurred
            && s'.lock == s.lock.(writeq := s.lock.writeq + [t], writersWaiting := s.lock.writersWaiting + 1)
  {
    longer := Go(run, Other(Wakeup.Dispatch(t)), true);
    longer := Go(longer, Acquire(t, Write, false), true);
    longer := Go(longer, Other(Wakeup.Block(t)), true);
  }

  function Fresh(): State {
    State(Wakeup.World(t => t, t => Wakeup.Active, t => Wakeup.WriteEvent, {}, p => [], s => None, s => {}, s => []),
          Rw(true, Read, None, 0, [], [], 0), multiset{}, 0)
  }

  /** Writer 1 is in, writers 2 and 3 wait in that order. */
  ghost predicate TwoQueued(s: State) {
    && (forall t :: s.w.home(t) == t && s.w.posts(t) == {})
    && (forall t :: s.w.phase(t) == if t == 2 || t == 3 then Wakeup.Waiting(WR) else Wakeup.Active)
    && (forall t :: s.w.current(t) == if t == 1 then Some(1) else None)
    && Wakeup.Wake(2, Wakeup.WriteEvent) !in s.w.occurred
    && s.lock == Rw(true, Write, Some(1), 0, [], [2, 3], 2)
  }

  lemma QueueTwo() returns (run: seq<State>)
    ensures IsRun(run, true) && TwoQueued(Last(run))
  {
    run := [Fresh()];
    run := Go(run, Other(Wakeup.Dispatch(1)), true);
    run := Go(run, Acquire(1, Write, false), true);
    run := GoQueue(run, 2);
    run := GoQueue(run, 3);
    assert [2] + [3] == [2, 3];
  }

  /** Writer 1 releases: 2 is dequeued, 3 is not. */
  lemma OneWokenOneQueued() returns (run: seq<State>)
    ensures IsRun(run, true)
    ensures var s := Last(run);
            && s.w.home(2) == 2 && s.w.Idle(2) && Wakeup.Wake(2, Wakeup.WriteEvent) !in s.w.occurred
            && (forall t :: s.w.phase(t) == if t == 2 || t == 3 then Wakeup.Waiting(WR) else Wakeup.Active)
            && s.lock == Rw(true, Write, None, 0, [], [3], 1)
  {
    run := QueueTwo();
    run := Go(run, Unlock(1), true);
  }

  /** The lock is free, somebody is queued for it, and no woken writer is left to come back for it. */
  ghost predicate Stranded(s: State) {
    && Free(s.lock) && (s.lock.readq != [] || s.lock.writeq != [])
    && forall t :: s.w.WaitsOn(t, WR) ==> t in s.lock.writeq
  }

  /** The woken writer is made ready by its extra event. */
  lemma WokenByTimeout() returns (run: seq<State>)
    ensures IsRun(run, true)
    ensures var s := Last(run);
            && s.w.Executes(2) && Wakeup.Wake(2, Wakeup.WriteEvent) !in s.w.occurred
            && (forall t :: s.w.phase(t) == if t == 2 then Wakeup.Awake(WR) else if t == 3 then Wakeup.Waiting(WR) else Wakeup.Active)
            && s.lock == Rw(true, Write, None, 0, [], [3], 1)
  {
    run := OneWokenOneQueued();
    run := Go(run, Other(Wakeup.Promote(2, false)), true);
    run := Go(run, Other(Wakeup.Dispatch(2)), true);
  }

  /** It leaves with EINTR. */
  lemma TimeoutStrands() returns (run: seq<State>)
    ensures IsRun(run, true) && Stranded(Last(run))
  {
    run := WokenByTimeout();
    run := Go(run, Resume(2, Write, true), true);
  }

  /** The woken writer is cancelled. */
  lemma CancellationStrands() returns (run: seq<State>)
    ensures IsRun(run, true) && Stranded(Last(run))
  {
    run := OneWokenOneQueued();
    run := Go(run, CancelWait(2, Write), true);
  }

  ghost predicate NeverStrands(interrupts: bool) {
    forall run: seq<State>, i :: IsRun(run, interrupts) && 0 <= i < |run| ==> !Stranded(run[i])
  }

  /** No run strands the queues exactly if no wait is given a second event or cancelled. */
  lemma NeverStrandsExactlyWhen(interrupts: bool)
    ensures NeverStrands(interrupts) <==> !interrupts
  {
    if interrupts {
      var run := TimeoutStrands();
      assert Stranded(run[|run| - 1]);
    } else {
      forall run: seq<State>, i | IsRun(run, interrupts) && 0 <= i < |run| ensures !Stranded(run[i]) {
        RunsAreGood(run, interrupts, i);
      }
    }
  }

  /** Reader 1 is in; threads 2 and 3 hold nothing. */
  ghost predicate OneReader(s: State) {
    && (forall t :: s.w.home(t) == t && s.w.posts(t) == {} && s.w.phase(t) == Wakeup.Active)
    && (forall t :: t != 1 ==> s.w.current(t) == None)
    && s.lock == Rw(true, Read, None, 1, [], [], 0) && s.holds == multiset{1} && s.strays == 0
  }

  lemma ReaderEnters(interrupts: bool) returns (run: seq<State>)
    ensures IsRun(run, interrupts) && OneReader(Last(run))
  {
    run := [Fresh()];
    run := Go(run, Other(Wakeup.Dispatch(1)), interrupts);
    run := Go(run, Acquire(1, Read, false), interrupts);
    assert multiset{} + multiset{1} == multiset{1};
  }

  lemma StrayRelease(interrupts: bool) returns (run: seq<State>)
    ensures IsRun(run, interrupts)
    ensures var s := Last(run);
            && s.w.home(3) == 3 && s.w.Idle(3) && s.w.phase(3) == Wakeup.Active
            && s.lock == Rw(true, Read, None, 0, [], [], 0) && s.holds == multiset{1} && s.strays == 1
  {
    run := ReaderEnters(interrupts);
    run := Go(run, Other(Wakeup.Dispatch(2)), interrupts);
    assert multiset{1} - multiset{2} == multiset{1};
    run := Go(run, Unlock(2), interrupts);
  }

  /** Thread 2 releases a lock it does not hold, and writer 3 gets in beside reader 1. */
  lemma StrayReleaseLetsAWriterIn(interrupts: bool) returns (run: seq<State>)
    ensures IsRun(run, interrupts)
    ensures var s := Last(run); s.lock.owner == Some(3) && s.holds == multiset{1} && s.strays == 1
  {
    run := StrayRelease(interrupts);
    run := Go(run, Other(Wakeup.Dispatch(3)), interrupts);
    run := Go(run, Acquire(3, Write, false), interrupts);
  }
}
