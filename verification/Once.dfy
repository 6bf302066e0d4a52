/**
 pth_once (pth_lib.c): callers on any scheduler race for a control word that is 0 (uninitialized), 1 (in
 progress) or 2 (done). One step is one atomic access to the word, or the end of the constructor.
 */
module Once {
  import opened Basics

  datatype Pc =
    | Outside   // not in a call, or died in one
    | Loading   // about to read the word
    | Swapping  // read 0, about to compare and swap
    | Yielding  // read 1, has yielded
    | Running   // won, inside the constructor
    | Dying     // cancelled or exited inside the constructor, the cleanup handler is about to reset the word
    | Finished  // the constructor has returned, about to publish
    | Returned  // returned TRUE

  /** `starts`, `deaths` and `ends` count constructor runs begun, cut short and completed. */
  datatype World = World(word: int, pc: Tid -> Pc, starts: nat, deaths: nat, ends: nat) {
    function At(t: Tid): Pc { pc(t) }

    predicate Initializing(t: Tid) { At(t) == Running || At(t) == Dying || At(t) == Finished }

    function Go(t: Tid, p: Pc): World { this.(pc := Set(pc, t, p)) }
  }

  datatype Step = Call(t: Tid) | Load(t: Tid) | Swap(t: Tid) | Resume(t: Tid) | Complete(t: Tid)
                | Die(t: Tid) | Cleanup(t: Tid) | Publish(t: Tid) | GiveUp(t: Tid)

  predicate Enabled(w: World, step: Step) {
    match step
    case Call(t) => w.At(t) == Outside || w.At(t) == Returned
    case Load(t) => w.At(t) == Loading
    case Swap(t) => w.At(t) == Swapping
    case Resume(t) => w.At(t) == Yielding
    case Complete(t) => w.At(t) == Running
    case Die(t) => w.At(t) == Running
    case Cleanup(t) => w.At(t) == Dying
    case Publish(t) => w.At(t) == Finished
    case GiveUp(t) => w.At(t) == Yielding
  }

  function Apply(w: World, step: Step): World
    requires Enabled(w, step)
  {
    match step
    case Call(t) => w.Go(t, Loading)
    case Load(t) => w.Go(t, if w.word == 2 then Returned else if w.word == 0 then Swapping else Yielding)
    case Swap(t) => if w.word == 0 then w.Go(t, Running).(word := 1, starts := w.starts + 1) else w.Go(t, Loading)
    case Resume(t) => w.Go(t, Loading)
    case Complete(t) => w.Go(t, Finished).(ends := w.ends + 1)
    case Die(t) => w.Go(t, Dying).(deaths := w.deaths + 1)
    case Cleanup(t) => w.Go(t, Outside).(word := 0)
    case Publish(t) => w.Go(t, Returned).(word := 2)
    case GiveUp(t) => w.Go(t, Outside)
  }

  ghost predicate Init(w: World) {
    && w.word == 0 && w.starts == 0 && w.deaths == 0 && w.ends == 0
    && forall t :: w.At(t) == Outside
  }

  /** The word is 1 exactly while one caller initializes, and nobody else does. */
  ghost predicate WordOk(w: World) {
    && (w.word == 1 <==> exists t :: w.Initializing(t))
    && forall t, u :: w.Initializing(t) && w.Initializing(u) ==> t == u
  }

  /** What has been counted agrees with the word and with where each caller is. */
  ghost predicate CountsOk(w: World) {
    && 0 <= w.word <= 2
    && (w.word == 0 ==> w.ends == 0 && w.starts == w.deaths)
    && (w.word == 2 ==> w.ends == 1 && w.starts == w.deaths + 1)
    && forall t :: PlaceOk(w, t)
  }

  predicate PlaceOk(w: World, t: Tid) {
    match w.At(t)
    case Running => w.ends == 0 && w.starts == w.deaths + 1
    case Dying => w.ends == 0 && w.starts == w.deaths
    case Finished => w.ends == 1 && w.starts == w.deaths + 1
    case Returned => w.word == 2
    case _ => true
  }

  ghost predicate Inv(w: World) { WordOk(w) && CountsOk(w) }

  lemma StepKeepsInv(w: World, step: Step)
    requires Inv(w) && Enabled(w, step)
    ensures Inv(Apply(w, step))
    ensures w.word == 2 ==> Apply(w, step) == w.Go(step.t, Apply(w, step).At(step.t))
  {
    var w' := Apply(w, step);
    var t := step.t;
    assert PlaceOk(w, t) && (w.Initializing(t) ==> w.word == 1);
    forall u ensures u != t ==> w'.At(u) == w.At(u) && w'.Initializing(u) == w.Initializing(u) {
    }
    forall u ensures PlaceOk(w', u) {
      assert PlaceOk(w, u) && (w.Initializing(u) && w.Initializing(t) ==> u == t);
    }
    if w.word == 1 && !w.Initializing(t) {
      var u :| w.Initializing(u);
      assert w'.Initializing(u);
    }
    assert w'.word == 1 && w.word != 1 ==> w'.Initializing(t);
    assert w'.word == 1 && w.Initializing(t) ==> w'.Initializing(t);
  }

  ghost predicate Next(w: World, w': World) {
    exists step :: Enabled(w, step) && w' == Apply(w, step)
  }

  ghost predicate IsRun(run: seq<World>) {
    run != [] && Init(run[0]) && forall i :: 0 <= i < |run| - 1 ==> Next(run[i], run[i + 1])
  }

  lemma {:induction false} RunsKeepInv(run: seq<World>, i: nat)
    requires IsRun(run) && i < |run|
    ensures Inv(run[i])
  {
    if i > 0 {
      RunsKeepInv(run, i - 1);
      assert Next(run[i - 1], run[i]);
      var step :| Enabled(run[i - 1], step) && run[i] == Apply(run[i - 1], step);
      StepKeepsInv(run[i - 1], step);
    }
  }

  // What the runs guarantee

  /** Never two initializers at once; at most one ever completes, and after it none begins. */
  lemma OneInitializer(run: seq<World>, i: nat, t: Tid, u: Tid)
    requires IsRun(run) && i < |run|
    ensures run[i].Initializing(t) && run[i].Initializing(u) ==> t == u
    ensures run[i].ends <= 1 && run[i].starts <= run[i].deaths + 1
    ensures run[i].ends == 1 ==> run[i].At(t) != Running && run[i].At(t) != Dying
  {
    RunsKeepInv(run, i);
    assert PlaceOk(run[i], t);
    if run[i].word == 1 {
      var v :| run[i].Initializing(v);
      assert PlaceOk(run[i], v);
    }
  }

  /** Once the word says done it stays so, and exactly one constructor run has completed. */
  lemma {:induction false} DoneIsPermanent(run: seq<World>, i: nat, j: nat)
    requires IsRun(run) && i <= j < |run| && run[i].word == 2
    ensures run[j].word == 2 && run[j].ends == 1 && run[j].starts == run[i].starts && run[j].deaths == run[i].deaths
    decreases j
  {
    RunsKeepInv(run, j);
    if i < j {
      DoneIsPermanent(run, i, j - 1);
      RunsKeepInv(run, j - 1);
      assert Next(run[j - 1], run[j]);
      var step :| Enabled(run[j - 1], step) && run[j] == Apply(run[j - 1], step);
      StepKeepsInv(run[j - 1], step);
    }
  }

  /** No caller returns before a constructor run has completed. */
  lemma ReturnFollowsCompletion(run: seq<World>, i: nat, t: Tid)
    requires IsRun(run) && i < |run| && run[i].At(t) == Returned
    ensures run[i].ends == 1 && run[i].word == 2
  {
    RunsKeepInv(run, i);
    assert PlaceOk(run[i], t);
  }

  // Once the word says done, every call comes to its end

  /** The steps of its own a caller takes before it returns. */
  function Distance(p: Pc): nat {
    match p case Loading => 1 case Swapping => 2 case Yielding => 2 case _ => 0
  }

  predicate InCall(p: Pc) { p == Loading || p == Swapping || p == Yielding }

  /** `steps` can be played from `w`; `t` is not cancelled while it yields. */
  ghost predicate Playable(w: World, steps: seq<Step>, t: Tid)
    decreases |steps|
  {
    steps != [] ==> Enabled(w, steps[0]) && steps[0] != GiveUp(t) && Playable(Apply(w, steps[0]), steps[1..], t)
  }

  ghost function Played(w: World, steps: seq<Step>, t: Tid): World
    requires Playable(w, steps, t)
    decreases |steps|
  {
    if steps == [] then w else Played(Apply(w, steps[0]), steps[1..], t)
  }

  function Own(steps: seq<Step>, t: Tid): nat {
    if steps == [] then 0 else (if steps[0].t == t then 1 else 0) + Own(steps[1..], t)
  }

  lemma StepComesCloser(w: World, step: Step, t: Tid)
    requires Inv(w) && w.word == 2 && Enabled(w, step) && step != GiveUp(t) && InCall(w.At(t))
    ensures var w' := Apply(w, step);
            && w'.word == 2
            && (step.t != t ==> w'.At(t) == w.At(t))
            && (step.t == t ==> Distance(w'.At(t)) == Distance(w.At(t)) - 1 && (InCall(w'.At(t)) || w'.At(t) == Returned))
  {
    StepKeepsInv(w, step);
  }

  /** When a caller has taken as many steps of its own, at most two, it has returned, whatever the others do. */
  lemma {:induction false} DoneCallReturns(w: World, steps: seq<Step>, t: Tid)
    requires Inv(w) && w.word == 2 && InCall(w.At(t)) && Playable(w, steps, t) && Own(steps, t) == Distance(w.At(t))
    ensures exists k :: 0 < k <= |steps| && Playable(w, steps[..k], t) && Played(w, steps[..k], t).At(t) == Returned
    decreases |steps|
  {
    var w' := Apply(w, steps[0]);
    StepComesCloser(w, steps[0], t);
    StepKeepsInv(w, steps[0]);
    if w'.At(t) == Returned {
      assert steps[..1][1..] == [];
      assert Playable(w, steps[..1], t) && Played(w, steps[..1], t) == w';
    } else {
      DoneCallReturns(w', steps[1..], t);
      var k :| 0 < k <= |steps[1..]| && Playable(w', steps[1..][..k], t) && Played(w', steps[1..][..k], t).At(t) == Returned;
      assert steps[..k + 1][1..] == steps[1..][..k];
      assert Playable(w, steps[..k + 1], t) && Played(w, steps[..k + 1], t).At(t) == Returned;
    }
  }

  /** A constructor run that returns is published by its caller, who then returns. */
  lemma CompletedRunPublishes(w: World, t: Tid)
    requires Inv(w) && w.At(t) == Running
    ensures var w1 := Apply(w, Complete(t));
            Enabled(w1, Publish(t)) &&
            var w2 := Apply(w1, Publish(t));
            w1.word == 1 && w2.word == 2 && w2.At(t) == Returned && w2.ends == 1 && w2.deaths == w.deaths
  {
    assert PlaceOk(w, t) && w.Initializing(t);
  }

  /** In every run: once the word has been 2, a caller that loads it returns. */
  lemma LoadAfterDoneReturns(run: seq<World>, i: nat, j: nat, t: Tid)
    requires IsRun(run) && i <= j < |run| && run[i].word == 2 && run[j].At(t) == Loading
    ensures Apply(run[j], Load(t)).At(t) == Returned
  {
    DoneIsPermanent(run, i, j);
  }

  /** `u` calls pth_once and is not interrupted before its compare and swap. */
  ghost predicate WinsFrom(w: World, u: Tid) {
    Enabled(w, Call(u)) &&
    var w1 := Apply(w, Call(u));
    Enabled(w1, Load(u)) &&
    var w2 := Apply(w1, Load(u));
    Enabled(w2, Swap(u)) &&
    var w3 := Apply(w2, Swap(u));
    w3.At(u) == Running && w3.word == 1 && w3.starts == w.starts + 1
  }

  /**
   A constructor run that was cut short leaves the control as if never called: once its handler has
   run the word is 0, nobody initializes, nothing has completed, and any caller that comes along then
   and is not interrupted goes on to run the constructor. The same holds wherever the word is 0.
   */
  lemma CutShortIsRetryable(run: seq<World>, i: nat, t: Tid)
    requires IsRun(run) && i < |run| && run[i].At(t) == Dying
    ensures var w := Apply(run[i], Cleanup(t));
            && w.word == 0 && w.ends == 0 && w.starts == w.deaths
            && (forall u :: !w.Initializing(u))
            && (forall u :: w.At(u) == Outside ==> WinsFrom(w, u))
  {
    RunsKeepInv(run, i);
    var w := Apply(run[i], Cleanup(t));
    assert Enabled(run[i], Cleanup(t));
    StepKeepsInv(run[i], Cleanup(t));
    forall u | w.At(u) == Outside ensures WinsFrom(w, u) {
      ZeroIsRetryable(w, u);
    }
  }

  lemma ZeroIsRetryable(w: World, u: Tid)
    requires w.word == 0 && w.At(u) == Outside
    ensures WinsFrom(w, u)
  {
  }

  /** Nobody waits for nothing: while the word is 1 some caller is still to publish or to reset it. */
  lemma WaitersAreWaitedFor(run: seq<World>, i: nat)
    requires IsRun(run) && i < |run| && run[i].word == 1
    ensures exists t :: run[i].Initializing(t)
  {
    RunsKeepInv(run, i);
  }
}
