/**
 A SELECT event: up to three descriptor sets of which only the descriptors below `nfd` count. Both
 backends ask the kernel for them together with everybody else's descriptors, and afterwards sort the
 answers back into the caller's sets (pth_sched.c), with the helpers of pth_util.c.
 */
module SelectEvents {
  import opened Basics
  import opened Readiness
  import EpollCache

  /** The caller's sets; a set that was not passed is empty. */
  datatype Sets = Sets(r: set<int>, w: set<int>, e: set<int>)

  datatype Outcome = NotYet | Selected(left: Sets, n: nat) | Invalid

  const NOTHING := Sets({}, {}, {})

  // What the pass asks for

  function Asked(q: Sets, fd: int): Mask {
    (if fd in q.r then {R} else {}) + (if fd in q.w then {W} else {}) + (if fd in q.e then {E} else {})
  }

  function Requests(q: Sets, nfd: nat): seq<Request> {
    if nfd == 0 then []
    else Requests(q, nfd - 1) + if Asked(q, nfd - 1) != {} then [(nfd - 1, Asked(q, nfd - 1))] else []
  }

  lemma OneMoreRequest(reqs: seq<Request>, at: int, m: Mask, fd: int)
    ensures Requested(reqs + (if m != {} then [(at, m)] else []), fd) == Requested(reqs, fd) + if fd == at then m else {}
  {
    if m != {} {
      RequestOneMore(reqs, at, m);
    } else {
      assert reqs + [] == reqs;
    }
  }

  /** The kernel is asked for exactly what the caller's sets hold below `nfd`. */
  lemma {:induction false} RequestsAreExact(q: Sets, nfd: nat, fd: int)
    ensures Requested(Requests(q, nfd), fd) == if 0 <= fd < nfd then Asked(q, fd) else {}
  {
    if nfd > 0 {
      RequestsAreExact(q, nfd - 1, fd);
      OneMoreRequest(Requests(q, nfd - 1), nfd - 1, Asked(q, nfd - 1), fd);
    }
  }

  /** First loop over a SELECT event */
  method Ask(polls: PollSet, q: Sets, nfd: nat)
    requires polls.Valid()
    modifies polls
    ensures polls.Valid() && polls.reqs == old(polls.reqs) + Requests(q, nfd)
  {
    assert old(polls.reqs) + [] == old(polls.reqs);
    for fd := 0 to nfd
      invariant polls.Valid() && polls.reqs == old(polls.reqs) + Requests(q, fd)
    {
      var pe: Mask := {};
      if fd in q.r {
        pe := pe + {R};
      }
      if fd in q.w {
        pe := pe + {W};
      }
      if fd in q.e {
        pe := pe + {E};
      }
      assert pe == Asked(q, fd);
      if pe != {} {
        polls.Add(fd, pe);
      }
    }
  }

  // What it makes of the answers

  /** The descriptors of `s` below `nfd` that the answers flag. */
  function Flagged(s: set<int>, nfd: int, answer: int -> Mask, flag: Flag): set<int> {
    set fd | fd in s && 0 <= fd < nfd && flag in answer(fd)
  }

  function Found(q: Sets, nfd: int, answer: int -> Mask): Sets {
    Sets(Flagged(q.r, nfd, answer, R), Flagged(q.w, nfd, answer, W), Flagged(q.e, nfd, answer, E))
  }

  ghost predicate Broken(nfd: int, answer: int -> Mask) { exists fd :: 0 <= fd < nfd && FAIL in answer(fd) }

  /** `s` cut down to what was found below `nfd`; nothing else is touched. */
  function Left(s: set<int>, nfd: int, found: set<int>): set<int> {
    set fd | fd in s && (0 <= fd < nfd ==> fd in found)
  }

  /** The result of the event: the sets and the count if anything was found, and a failure only if nothing was. */
  ghost function Result(q: Sets, nfd: nat, answer: int -> Mask): Outcome {
    var f := Found(q, nfd, answer);
    if f != NOTHING then
      Selected(Sets(Left(q.r, nfd, f.r), Left(q.w, nfd, f.w), Left(q.e, nfd, f.e)), |f.r| + |f.w| + |f.e|)
    else if Broken(nfd, answer) then Invalid
    else NotYet
  }

  lemma FlaggedGrows(s: set<int>, fd: nat, answer: int -> Mask, flag: Flag)
    ensures Flagged(s, fd + 1, answer, flag) == Flagged(s, fd, answer, flag) + if fd in s && flag in answer(fd) then {fd} else {}
  {
  }

  /** The second loop over a SELECT event: the answers, sorted back into three sets */
  method Gather(q: Sets, nfd: nat, answer: int -> Mask) returns (found: Sets, bad: bool)
    ensures found == Found(q, nfd, answer) && (bad <==> Broken(nfd, answer))
  {
    found, bad := NOTHING, false;
    for fd := 0 to nfd
      invariant found == Found(q, fd, answer) && (bad <==> Broken(fd, answer))
    {
      FlaggedGrows(q.r, fd, answer, R);
      FlaggedGrows(q.w, fd, answer, W);
      FlaggedGrows(q.e, fd, answer, E);
      var re := answer(fd);
      if re != {} {
        if FAIL in re {
          bad := true;
        }
        if R in re && fd in q.r {
          found := found.(r := found.r + {fd});
        }
        if W in re && fd in q.w {
          found := found.(w := found.w + {fd});
        }
        if E in re && fd in q.e {
          found := found.(e := found.e + {fd});
        }
      }
    }
  }

  /** Something of `q` below `nfd` is in `found`. */
  ghost predicate Hit(q: Sets, nfd: int, found: Sets) {
    exists fd :: 0 <= fd < nfd && ((fd in q.r && fd in found.r) || (fd in q.w && fd in found.w) || (fd in q.e && fd in found.e))
  }

  /** pth_util_fds_test */
  method Test(q: Sets, nfd: nat, found: Sets) returns (hit: bool)
    ensures hit <==> Hit(q, nfd, found)
  {
    for fd := 0 to nfd
      invariant !Hit(q, fd, found)
    {
      if (fd in q.r && fd in found.r) || (fd in q.w && fd in found.w) || (fd in q.e && fd in found.e) {
        return true;
      }
    }
    return false;
  }

  function Below(s: set<int>, found: set<int>, nfd: int): set<int> {
    set fd | fd in s && fd in found && 0 <= fd < nfd
  }

  /** One set of pth_util_fds_select at one descriptor: keep and count it, or clear it. */
  method Keep(s: set<int>, fd: nat, found: set<int>, ghost whole: set<int>) returns (t: set<int>, n: nat)
    requires s == Left(whole, fd, found)
    ensures t == Left(whole, fd + 1, found)
    ensures |Below(whole, found, fd + 1)| == |Below(whole, found, fd)| + n
  {
    t, n := s, 0;
    assert Below(whole, found, fd + 1) == Below(whole, found, fd) + if fd in whole && fd in found then {fd} else {};
    if fd in s {
      if fd !in found {
        t := t - {fd};
      } else {
        n := 1;
      }
    }
  }

  /** pth_util_fds_select */
  method Select(q: Sets, nfd: nat, found: Sets) returns (left: Sets, n: nat)
    ensures left == Sets(Left(q.r, nfd, found.r), Left(q.w, nfd, found.w), Left(q.e, nfd, found.e))
    ensures n == |Below(q.r, found.r, nfd)| + |Below(q.w, found.w, nfd)| + |Below(q.e, found.e, nfd)|
  {
    left, n := q, 0;
    for fd := 0 to nfd
      invariant left == Sets(Left(q.r, fd, found.r), Left(q.w, fd, found.w), Left(q.e, fd, found.e))
      invariant n == |Below(q.r, found.r, fd)| + |Below(q.w, found.w, fd)| + |Below(q.e, found.e, fd)|
    {
      var r, i := Keep(left.r, fd, found.r, q.r);
      var w, j := Keep(left.w, fd, found.w, q.w);
      var e, k := Keep(left.e, fd, found.e, q.e);
      left, n := Sets(r, w, e), n + i + j + k;
    }
  }

  lemma FoundIsBelow(q: Sets, nfd: nat, answer: int -> Mask)
    ensures var f := Found(q, nfd, answer);
            && Below(q.r, f.r, nfd) == f.r && Below(q.w, f.w, nfd) == f.w && Below(q.e, f.e, nfd) == f.e
            && (Hit(q, nfd, f) <==> f != NOTHING)
  {
    var f := Found(q, nfd, answer);
    if f != NOTHING {
      var fd :| fd in f.r || fd in f.w || fd in f.e;
      assert 0 <= fd < nfd;
    }
  }

  /** The late handling of a SELECT event */
  method Finish(q: Sets, nfd: nat, answer: int -> Mask) returns (o: Outcome)
    ensures o == Result(q, nfd, answer)
  {
    var found, bad := Gather(q, nfd, answer);
    FoundIsBelow(q, nfd, answer);
    var hit := Test(q, nfd, found);
    if hit {
      var left, n := Select(q, nfd, found);
      return Selected(left, n);
    }
    if bad {
      return Invalid;
    }
    return NotYet;
  }

  // The two backends

  /** The tests the poll(2) backend makes of one descriptor's answer, as the flags of the other backend. */
  function PollFlags(re: set<Event>): Mask {
    FromEpoll(re) + if NVAL in re then {FAIL} else {}
  }

  lemma AgreeingAnswers(m: Mask, re: set<Event>)
    requires forall goal :: CacheVerdict(goal, m) == PollVerdict(goal, re)
    ensures m == PollFlags(re)
  {
    assert CacheVerdict({R}, m) == PollVerdict({R}, re);
    assert CacheVerdict({W}, m) == PollVerdict({W}, re);
    assert CacheVerdict({E}, m) == PollVerdict({E}, re);
    assert CacheVerdict({}, m) == PollVerdict({}, re);
    assert {OUT, HUP, ERR} == {OUT, ERR, HUP};
    forall f ensures f in m <==> f in PollFlags(re) {
      match f
      case R =>
      case W =>
      case E =>
      case FAIL =>
    }
  }

  /** pth_pollset_revents */
  ghost function PollAnswer(reqs: seq<Request>, open: set<int>, level: int -> set<Event>): int -> Mask {
    fd => if fd in Order(reqs) then PollFlags(Revents(fd in open, level(fd), Requested(reqs, fd))) else {}
  }

  /** pth_evp_ready */
  function CacheAnswer(answers: map<int, Mask>): int -> Mask {
    fd => if fd in answers then answers[fd] else {}
  }

  lemma ResultOfAnswers(q: Sets, nfd: nat, a: int -> Mask, b: int -> Mask)
    requires forall fd :: 0 <= fd < nfd ==> a(fd) == b(fd)
    ensures Result(q, nfd, a) == Result(q, nfd, b)
  {
    assert Found(q, nfd, a) == Found(q, nfd, b);
    assert Broken(nfd, a) <==> Broken(nfd, b) by {
      if fd :| 0 <= fd < nfd && FAIL in a(fd) {
        assert FAIL in b(fd);
      }
      if fd :| 0 <= fd < nfd && FAIL in b(fd) {
        assert FAIL in a(fd);
      }
    }
  }

  /**
   A SELECT event ends the same way on both backends, sets and count included, if every descriptor
   event would and nothing is answered that was not asked for.
   */
  lemma SelectsAgree(q: Sets, nfd: nat, reqs: seq<Request>, k: EpollCache.Kernel, level: int -> set<Event>, answers: map<int, Mask>)
    requires forall fd :: 0 <= fd < nfd ==>
               if fd in Order(reqs) then EpollCache.Agrees(answers, k, level, Requested(reqs, fd), fd) else fd !in answers
    ensures Result(q, nfd, CacheAnswer(answers)) == Result(q, nfd, PollAnswer(reqs, k.open, level))
  {
    var a, b := CacheAnswer(answers), PollAnswer(reqs, k.open, level);
    forall fd | 0 <= fd < nfd ensures a(fd) == b(fd) {
      if fd in Order(reqs) {
        assert EpollCache.Agrees(answers, k, level, Requested(reqs, fd), fd);
        AgreeingAnswers(a(fd), Revents(fd in k.open, level(fd), Requested(reqs, fd)));
      }
    }
    ResultOfAnswers(q, nfd, a, b);
  }

  // What select(2) promises

  /** The descriptors of `s` below `nfd` that are open and in the condition the flag stands for. */
  function InCondition(s: set<int>, nfd: int, open: set<int>, level: int -> set<Event>, flag: Flag): set<int> {
    set fd | fd in s && 0 <= fd < nfd && fd in open && flag in FromEpoll(level(fd))
  }

  lemma ReportedIfAsked(level: set<Event>, want: Mask, flag: Flag)
    requires flag in want && flag != FAIL
    ensures flag in FromEpoll(Reported(level, want)) <==> flag in FromEpoll(level)
  {
    var re := Reported(level, want);
    assert IN in re <==> IN in level && R in want;
    assert OUT in re <==> OUT in level && W in want;
    assert PRI in re <==> PRI in level && E in want;
    assert HUP in re <==> HUP in level;
    assert ERR in re <==> ERR in level;
  }

  lemma FlaggedIfInCondition(s: set<int>, nfd: nat, reqs: seq<Request>, open: set<int>, level: int -> set<Event>, flag: Flag)
    requires flag != FAIL && forall fd :: fd in s && 0 <= fd < nfd ==> fd in Order(reqs) && flag in Requested(reqs, fd)
    ensures Flagged(s, nfd, PollAnswer(reqs, open, level), flag) == InCondition(s, nfd, open, level, flag)
  {
    forall fd | fd in s && 0 <= fd < nfd
      ensures flag in PollAnswer(reqs, open, level)(fd) <==> fd in open && flag in FromEpoll(level(fd))
    {
      ReportedIfAsked(level(fd), Requested(reqs, fd), flag);
      assert {NVAL} * {IN, HUP, ERR} == {} && {NVAL} * {OUT, HUP, ERR} == {};
    }
  }

  /** The pass asks for everything the event wants, among other things. */
  ghost predicate AskedFor(q: Sets, nfd: nat, reqs: seq<Request>) {
    forall fd :: 0 <= fd < nfd && Asked(q, fd) != {} ==> fd in Order(reqs) && Asked(q, fd) <= Requested(reqs, fd)
  }

  /**
   The event finds exactly its descriptors below `nfd` that are open and readable, writeable or in an
   exceptional condition, whatever else the pass asks for; a hang-up or an error counts as both of
   the first two. It fails exactly if there are none and a descriptor below `nfd` that anybody asks
   for is closed.
   */
  lemma SelectFindsExactly(q: Sets, nfd: nat, reqs: seq<Request>, open: set<int>, level: int -> set<Event>)
    requires AskedFor(q, nfd, reqs) && forall fd :: NVAL !in level(fd)
    ensures var answer := PollAnswer(reqs, open, level);
            var found := Sets(InCondition(q.r, nfd, open, level, R), InCondition(q.w, nfd, open, level, W),
                              InCondition(q.e, nfd, open, level, E));
            && Found(q, nfd, answer) == found
            && (Result(q, nfd, answer) == Invalid <==>
                  found == NOTHING && exists fd :: 0 <= fd < nfd && fd in Order(reqs) && fd !in open)
            && (Result(q, nfd, answer).Selected? <==> found != NOTHING)
  {
    forall fd | 0 <= fd < nfd && Asked(q, fd) != {} ensures fd in Order(reqs) && Asked(q, fd) <= Requested(reqs, fd) {
    }
    assert forall fd :: fd in q.r ==> R in Asked(q, fd);
    assert forall fd :: fd in q.w ==> W in Asked(q, fd);
    assert forall fd :: fd in q.e ==> E in Asked(q, fd);
    FlaggedIfInCondition(q.r, nfd, reqs, open, level, R);
    FlaggedIfInCondition(q.w, nfd, reqs, open, level, W);
    FlaggedIfInCondition(q.e, nfd, reqs, open, level, E);
    ClosedIsBroken(nfd, reqs, open, level);
  }

  lemma ClosedIsBroken(nfd: nat, reqs: seq<Request>, open: set<int>, level: int -> set<Event>)
    requires forall fd :: NVAL !in level(fd)
    ensures Broken(nfd, PollAnswer(reqs, open, level)) <==> exists fd :: 0 <= fd < nfd && fd in Order(reqs) && fd !in open
  {
    forall fd | 0 <= fd < nfd ensures FAIL in PollAnswer(reqs, open, level)(fd) <==> fd in Order(reqs) && fd !in open {
    }
  }

  const BOTH: seq<Request> := [(3, {R}), (4, {R})]

  lemma BothAreAsked()
    ensures Order(BOTH) == [3, 4] && Requested(BOTH, 3) == {R}
  {
    var first: seq<Request> := [(3, {R})];
    assert BOTH[..1] == first && |first[..0]| == 0;
    assert Order(first) == [3] && Requested(first, 3) == {R};
  }

  /** So it can fail for a descriptor of somebody else: 4 is closed, and this event asks for 3 only. */
  lemma FailsForAnother()
    ensures var q := Sets({3}, {}, {});
            AskedFor(q, 5, BOTH) && Result(q, 5, PollAnswer(BOTH, {3}, _ => {})) == Invalid
  {
    BothAreAsked();
    assert 0 <= 4 < 5 && 4 in Order(BOTH);
    SelectFindsExactly(Sets({3}, {}, {}), 5, BOTH, {3}, _ => {});
  }

  function Above(s: set<int>, nfd: int): set<int> {
    set fd | fd in s && !(0 <= fd < nfd)
  }

  lemma LeftIsFoundAndAbove(s: set<int>, nfd: int, found: set<int>)
    requires found <= s && forall fd :: fd in found ==> 0 <= fd < nfd
    ensures Left(s, nfd, found) == found + Above(s, nfd)
  {
  }

  /** What the caller gets back: of each set what is in the condition asked for, everything above the limit, and how many of the former. */
  lemma SelectReturnsExactly(q: Sets, nfd: nat, reqs: seq<Request>, open: set<int>, level: int -> set<Event>)
    requires AskedFor(q, nfd, reqs) && forall fd :: NVAL !in level(fd)
    requires Result(q, nfd, PollAnswer(reqs, open, level)).Selected?
    ensures var o := Result(q, nfd, PollAnswer(reqs, open, level));
            var r, w, e := InCondition(q.r, nfd, open, level, R), InCondition(q.w, nfd, open, level, W), InCondition(q.e, nfd, open, level, E);
            o.left == Sets(r + Above(q.r, nfd), w + Above(q.w, nfd), e + Above(q.e, nfd)) && o.n == |r| + |w| + |e| && o.n > 0
  {
    SelectFindsExactly(q, nfd, reqs, open, level);
    var f := Found(q, nfd, PollAnswer(reqs, open, level));
    LeftIsFoundAndAbove(q.r, nfd, f.r);
    LeftIsFoundAndAbove(q.w, nfd, f.w);
    LeftIsFoundAndAbove(q.e, nfd, f.e);
    assert |f.r| + |f.w| + |f.e| > 0 by {
      assert f.r != {} || f.w != {} || f.e != {};
    }
  }
}
