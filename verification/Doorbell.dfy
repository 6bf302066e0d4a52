/**
 The sleep protocol of a scheduler (pth_sched.c): remote OS threads push a message into its inbox and
 then write a byte to its non-blocking signal pipe; the event manager clears the pipe, drains the
 inbox, scans its waiting threads and only then may block. Message ports are not messages: a putter
 appends to the port and then writes the byte alone.
 */
module SignalPipe {
  const CHUNK := 128

  class Pipe {
    const capacity: int
    var bytes: int

    ghost predicate Valid()
      reads this
    {
      1 <= capacity && 0 <= bytes <= capacity
    }

    constructor (capacity: int)
      requires capacity >= 1
      ensures Valid() && bytes == 0 && this.capacity == capacity
    {
      this.capacity, bytes := capacity, 0;
    }

    /** A non-blocking one-byte write; on a full pipe it fails and the caller does not care. */
    method Ring()
      requires Valid()
      modifies this
      ensures Valid() && bytes == Rung(capacity, old(bytes)) && bytes > 0
    {
      if bytes < capacity {
        bytes := bytes + 1;
      }
    }

    method Read() returns (n: int)
      requires Valid()
      modifies this
      ensures Valid() && n == old(bytes) - bytes && bytes == ChunkRead(old(bytes))
    {
      n := if bytes < CHUNK then bytes else CHUNK;
      bytes := bytes - n;
    }

    /** Read until nothing is left. */
    method Clear()
      requires Valid()
      modifies this
      ensures Valid() && bytes == 0
    {
      var n := Read();
      while n > 0
        invariant Valid() && n >= 0 && (n == 0 ==> bytes == 0)
        decreases bytes + n
      {
        n := Read();
      }
    }
  }

  function Rung(capacity: int, bytes: int): int {
    if bytes < capacity then bytes + 1 else bytes
  }

  function ChunkRead(bytes: int): int {
    if bytes < CHUNK then 0 else bytes - CHUNK
  }
}

/** One scheduler, any number of remote posters and putters, in every interleaving. */
module Doorbell {
  import opened Basics
  import opened SignalPipe

  datatype Phase =
    | Busy      // running threads, or between passes
    | Clearing  // reading the signal pipe empty
    | Draining  // about to take the inbox
    | Applying  // applying what was taken
    | Scanning  // looking at the waiting threads' events
    | Decided   // about to poll
    | Blocked   // inside a poll that may sleep
    | Polled    // the poll has returned
    | Applying2 // applying what arrived meanwhile

  datatype Poster = Idle | Pushed | Put

  /**
   `watching`: a thread of this scheduler waits for the port and its event is pending. `posted` and
   `drained` record history: the messages ever put into the inbox, and those ever taken out of it.
   */
  datatype State = State(
    capacity: int, pipe: int, inbox: seq<int>, phase: Phase, dontBlock: bool,
    poster: int -> Poster, port: int, watching: bool, posted: seq<int>, drained: seq<int>)
  {
    function Post(m: int): State { this.(inbox := inbox + [m], posted := posted + [m]) }

    function Drain(): State { this.(inbox := [], drained := drained + inbox) }
  }

  datatype Step =
    | Push(who: int, m: int) | Write(who: int)
    | PortPut(who: int) | Kick(who: int) | PortGet
    | LocalPost(m: int) | LocalPut | LocalWait
    | EnterManager(poll: bool) | Read | ReadNothing
    | Exchange | SelfPost(m: int) | DoneApplying
    | Scan | Poll | PollReturns(other: bool) | Exchange2 | Promote(again: bool)

  predicate Enabled(s: State, step: Step) {
    match step
    case Push(who, m) => s.poster(who) == Idle
    case Write(who) => s.poster(who) == Pushed
    case PortPut(who) => s.poster(who) == Idle
    case Kick(who) => s.poster(who) == Put
    case PortGet => s.port > 0
    case LocalPost(m) => s.phase == Busy
    case LocalPut => s.phase == Busy
    case LocalWait => s.phase == Busy
    case EnterManager(poll) => s.phase == Busy
    case Read => s.phase == Clearing && s.pipe > 0
    case ReadNothing => s.phase == Clearing && s.pipe == 0
    case Exchange => s.phase == Draining
    case SelfPost(m) => (s.phase == Applying && s.dontBlock) || s.phase == Applying2
    case DoneApplying => s.phase == Applying
    case Scan => s.phase == Scanning
    case Poll => s.phase == Decided
    case PollReturns(other) => s.phase == Blocked && (s.pipe > 0 || other)
    case Exchange2 => s.phase == Polled
    case Promote(again) => s.phase == Applying2
  }

  /**
   A message applied during a drain may itself post to the same inbox, without a byte; it can only do
   so when the drain found something, and then the pass does not block.
   */
  function Apply(s: State, step: Step): State
    requires Enabled(s, step)
  {
    match step
    case Push(who, m) => s.Post(m).(poster := Set(s.poster, who, Pushed))
    case Write(who) => s.(pipe := Rung(s.capacity, s.pipe), poster := Set(s.poster, who, Idle))
    case PortPut(who) => s.(port := s.port + 1, poster := Set(s.poster, who, Put))
    case Kick(who) => s.(pipe := Rung(s.capacity, s.pipe), poster := Set(s.poster, who, Idle))
    case PortGet => s.(port := s.port - 1)
    case LocalPost(m) => s.Post(m)
    case LocalPut => s.(port := s.port + 1)
    case LocalWait => s.(watching := true)
    case EnterManager(poll) => s.(phase := Clearing, dontBlock := poll)
    case Read => s.(pipe := ChunkRead(s.pipe))
    case ReadNothing => s.(phase := Draining)
    case Exchange => s.Drain().(dontBlock := s.dontBlock || s.inbox != [], phase := Applying)
    case SelfPost(m) => s.Post(m)
    case DoneApplying => s.(phase := Scanning)
    case Scan =>
      var occurred := s.watching && s.port > 0;
      s.(watching := s.watching && !occurred, dontBlock := s.dontBlock || occurred, phase := Decided)
    case Poll => s.(phase := if s.dontBlock then Polled else Blocked)
    case PollReturns(other) => s.(phase := Polled)
    case Exchange2 => s.Drain().(phase := Applying2)
    case Promote(again) => s.(phase := if again then Clearing else Busy)
  }

  ghost predicate Init(s: State) {
    && s.capacity >= 1 && s.pipe == 0 && s.inbox == [] && s.phase == Busy
    && s.port == 0 && !s.watching && s.posted == [] && s.drained == []
    && forall who :: s.poster(who) == Idle
  }

  ghost predicate AnyPushed(s: State) { exists who :: s.poster(who) == Pushed }

  ghost predicate AnyPut(s: State) { exists who :: s.poster(who) == Put }

  predicate SinceDrain(p: Phase) { p == Applying || p == Scanning || p == Decided || p == Blocked }

  predicate SinceScan(p: Phase) { p == Decided || p == Blocked }

  ghost predicate Inv(s: State) {
    && s.capacity >= 1 && 0 <= s.pipe <= s.capacity && s.port >= 0 && s.posted == s.drained + s.inbox
    && (s.phase == Blocked ==> !s.dontBlock)
    && (SinceDrain(s.phase) && s.inbox != [] ==> s.dontBlock || s.pipe > 0 || AnyPushed(s))
    && (SinceScan(s.phase) && s.watching && s.port > 0 ==> s.dontBlock || s.pipe > 0 || AnyPut(s))
  }

  lemma StepKeepsInv(s: State, step: Step)
    requires Inv(s) && Enabled(s, step)
    ensures Inv(Apply(s, step))
  {
    var s' := Apply(s, step);
    match step
    case Push(who, m) => assert s'.poster(who) == Pushed; KeepPut(s, s', who);
    case PortPut(who) => assert s'.poster(who) == Put; KeepPushed(s, s', who);
    case Write(who) =>
    case Kick(who) =>
    case _ => assert s'.poster == s.poster;
  }

  lemma KeepPut(s: State, s': State, who: int)
    requires s.poster(who) == Idle && forall x :: x != who ==> s'.poster(x) == s.poster(x)
    ensures AnyPut(s) ==> AnyPut(s')
  {
    if x :| s.poster(x) == Put {
      assert s'.poster(x) == Put;
    }
  }

  lemma KeepPushed(s: State, s': State, who: int)
    requires s.poster(who) == Idle && forall x :: x != who ==> s'.poster(x) == s.poster(x)
    ensures AnyPushed(s) ==> AnyPushed(s')
  {
    if x :| s.poster(x) == Pushed {
      assert s'.poster(x) == Pushed;
    }
  }

  ghost predicate Next(s: State, s': State) {
    exists step :: Enabled(s, step) && s' == Apply(s, step)
  }

  ghost predicate IsRun(run: seq<State>) {
    run != [] && Init(run[0]) && forall i :: 0 <= i < |run| - 1 ==> Next(run[i], run[i + 1])
  }

  lemma {:induction false} RunsKeepInv(run: seq<State>, i: nat)
    requires IsRun(run) && i < |run|
    ensures Inv(run[i])
  {
    if i > 0 {
      RunsKeepInv(run, i - 1);
      assert Next(run[i - 1], run[i]);
      var step :| Enabled(run[i - 1], step) && run[i] == Apply(run[i - 1], step);
      StepKeepsInv(run[i - 1], step);
    }
  }

  /**
   A scheduler never sleeps through work: while it is blocked with a message in its inbox, or with a
   message in a port one of its threads waits for, its pipe holds a byte or a poster that has not yet
   written its byte is about to. Otherwise the poll can return at once.
   */
  lemma SleepIsSafe(run: seq<State>, i: nat)
    requires IsRun(run) && i < |run| && run[i].phase == Blocked
    ensures run[i].inbox != [] ==> run[i].pipe > 0 || AnyPushed(run[i])
    ensures run[i].watching && run[i].port > 0 ==> run[i].pipe > 0 || AnyPut(run[i])
  {
    RunsKeepInv(run, i);
  }

  /** Every message posted is taken out once, in order, and both drains of a pass take all there is. */
  lemma DrainsTakeAll(run: seq<State>, i: nat)
    requires IsRun(run) && i < |run|
    ensures run[i].drained <= run[i].posted
    ensures run[i].phase == Draining ==> Apply(run[i], Exchange).drained == run[i].posted
    ensures run[i].phase == Polled ==> Apply(run[i], Exchange2).drained == run[i].posted
  {
    RunsKeepInv(run, i);
  }

  /** A poster that writes its byte is done, and has left one in the pipe. */
  lemma PosterFinishes(s: State, who: int, step: Step)
    requires Inv(s) && Enabled(s, step) && (step == Write(who) || step == Kick(who))
    ensures Apply(s, step).poster(who) == Idle && Apply(s, step).pipe > 0
  {
  }

  /** A scan ends the wait of a thread whose port holds a message, and of no other. */
  lemma ScanFindsTheMessage(s: State)
    requires Inv(s) && Enabled(s, Scan)
    ensures Apply(s, Scan).watching <==> s.watching && s.port == 0
  {
  }

  /** The manager is entered by its call alone, and left by the promotion that does not go round again. */
  lemma PassEndsExactly(s: State, step: Step)
    requires Enabled(s, step)
    ensures s.phase != Busy ==> (Apply(s, step).phase == Busy <==> step == Promote(false))
    ensures s.phase == Busy ==> (Apply(s, step).phase != Busy <==> step.EnterManager?)
  {
  }

  // Polling and waiting passes

  lemma PassKeepsPolling(s: State, s': State)
    requires Inv(s) && Next(s, s') && s.phase != Busy && s.dontBlock
    ensures s'.dontBlock && s'.phase != Blocked
  {
  }

  predicate NoWork(s: State) { s.inbox == [] && !(s.watching && s.port > 0) }

  lemma PassStaysQuiet(s: State, s': State)
    requires Next(s, s') && s.phase != Busy && !s.dontBlock && NoWork(s)
    ensures !s'.dontBlock
  {
  }

  lemma RunStep(run: seq<State>, k: nat)
    requires IsRun(run) && k + 1 < |run|
    ensures Inv(run[k]) && Next(run[k], run[k + 1])
  {
    RunsKeepInv(run, k);
  }

  /** The manager is entered at step `i` and not left up to step `j`. */
  ghost predicate PassFrom(run: seq<State>, poll: bool, i: nat, j: nat) {
    && i < j < |run| && Enabled(run[i], EnterManager(poll)) && run[i + 1] == Apply(run[i], EnterManager(poll))
    && forall k :: i < k <= j ==> run[k].phase != Busy
  }

  lemma Entered(run: seq<State>, poll: bool, i: nat, j: nat)
    requires PassFrom(run, poll, i, j)
    ensures run[i + 1].dontBlock == poll && run[i + 1].phase == Clearing
  {
  }

  /** What every step of a run does to the decision, inside a pass */
  ghost predicate Decides(run: seq<State>) {
    forall k :: 0 <= k < |run| - 1 && run[k].phase != Busy ==>
      && (run[k].dontBlock ==> run[k + 1].dontBlock && run[k + 1].phase != Blocked)
      && (!run[k].dontBlock && NoWork(run[k]) ==> !run[k + 1].dontBlock)
  }

  lemma RunsDecide(run: seq<State>)
    requires IsRun(run)
    ensures Decides(run)
  {
    forall k | 0 <= k < |run| - 1 && run[k].phase != Busy
      ensures run[k].dontBlock ==> run[k + 1].dontBlock && run[k + 1].phase != Blocked
      ensures !run[k].dontBlock && NoWork(run[k]) ==> !run[k + 1].dontBlock
    {
      RunStep(run, k);
      if run[k].dontBlock {
        PassKeepsPolling(run[k], run[k + 1]);
      } else if NoWork(run[k]) {
        PassStaysQuiet(run[k], run[k + 1]);
      }
    }
  }

  lemma {:induction false} KeepsPolling(run: seq<State>, i: nat, j: nat)
    requires Decides(run) && i <= j < |run| && run[i].dontBlock && run[i].phase != Blocked
    requires forall k :: i <= k <= j ==> run[k].phase != Busy
    ensures run[j].dontBlock && run[j].phase != Blocked
    decreases j
  {
    if i < j {
      KeepsPolling(run, i, j - 1);
    }
  }

  lemma {:induction false} KeepsQuiet(run: seq<State>, i: nat, j: nat)
    requires Decides(run) && i <= j < |run| && !run[i].dontBlock
    requires forall k :: i <= k <= j ==> run[k].phase != Busy && NoWork(run[k])
    ensures !run[j].dontBlock
    decreases j
  {
    if i < j {
      KeepsQuiet(run, i, j - 1);
    }
  }

  /** A pass that is entered to poll never blocks, however often it goes round. */
  lemma PollingPassNeverBlocks(run: seq<State>, i: nat, j: nat)
    requires IsRun(run) && PassFrom(run, true, i, j)
    ensures run[j].phase != Blocked && run[j].dontBlock
  {
    Entered(run, true, i, j);
    RunsDecide(run);
    KeepsPolling(run, i + 1, j);
  }

  /** Neither does a pass that has found messages in the inbox, or an event that has occurred, even if it was entered to wait. */
  lemma BusyPassNeverBlocks(run: seq<State>, i: nat, j: nat, step: Step)
    requires IsRun(run) && i < j < |run| && Enabled(run[i], step) && run[i + 1] == Apply(run[i], step)
    requires (step == Exchange && run[i].inbox != []) || (step == Scan && run[i].watching && run[i].port > 0)
    requires forall k :: i < k <= j ==> run[k].phase != Busy
    ensures run[j].phase != Blocked
  {
    FindsWork(run[i], step);
    RunsDecide(run);
    KeepsPolling(run, i + 1, j);
  }

  lemma FindsWork(s: State, step: Step)
    requires Enabled(s, step)
    requires (step == Exchange && s.inbox != []) || (step == Scan && s.watching && s.port > 0)
    ensures Apply(s, step).dontBlock && Apply(s, step).phase != Blocked
  {
  }

  /** One that is entered to wait, and finds no work on its way, does not spin: its poll blocks. */
  lemma IdlePassBlocks(run: seq<State>, i: nat, j: nat)
    requires IsRun(run) && PassFrom(run, false, i, j) && run[j].phase == Decided
    requires forall k :: i < k <= j ==> NoWork(run[k])
    ensures Apply(run[j], Poll).phase == Blocked
  {
    Entered(run, false, i, j);
    RunsDecide(run);
    KeepsQuiet(run, i + 1, j);
  }

  /** When every poster has finished, pending work means that the poll is ready to return. */
  lemma WorkEndsTheSleep(run: seq<State>, i: nat)
    requires IsRun(run) && i < |run| && run[i].phase == Blocked
    requires forall who :: run[i].poster(who) == Idle
    requires run[i].inbox != [] || (run[i].watching && run[i].port > 0)
    ensures Enabled(run[i], PollReturns(false))
  {
    SleepIsSafe(run, i);
  }
}
