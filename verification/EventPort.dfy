/** What the descriptor events of one pass ask for, and how poll(2) and epoll(7) answer. */
module Readiness {
  import opened Basics

  datatype Flag = R | W | E | FAIL

  type Mask = set<Flag>

  type Request = (int, Mask)

  /** Negative descriptors are ignored. */
  function Askable(reqs: seq<Request>): seq<Request> {
    if reqs == [] then []
    else
      var n := |reqs| - 1;
      Askable(reqs[..n]) + if reqs[n].0 >= 0 then [reqs[n]] else []
  }

  /** Everything the requests of a pass want of one descriptor. */
  function Requested(reqs: seq<Request>, fd: int): Mask {
    if reqs == [] then {}
    else
      var n := |reqs| - 1;
      Requested(reqs[..n], fd) + if reqs[n].0 == fd then reqs[n].1 else {}
  }

  lemma AskableOneMore(reqs: seq<Request>, fd: int)
    requires reqs != []
    ensures var n := |reqs| - 1;
            var before, after, at := Askable(reqs[..n]), Askable(reqs), reqs[n].0;
            && Requested(after, fd) == Requested(before, fd) + (if fd == at && at >= 0 then reqs[n].1 else {})
            && (fd in Order(after) <==> fd in Order(before) || (fd == at && at >= 0))
  {
    var n := |reqs| - 1;
    if reqs[n].0 >= 0 {
      RequestOneMore(Askable(reqs[..n]), reqs[n].0, reqs[n].1);
      assert Askable(reqs) == Askable(reqs[..n]) + [(reqs[n].0, reqs[n].1)];
    } else {
      assert Askable(reqs) == Askable(reqs[..n]);
    }
  }

  /** Nothing that is asked of a proper descriptor is lost, and nothing is asked of others; the same descriptors are listed. */
  lemma {:induction false} AskableKeepsRequests(reqs: seq<Request>, fd: int)
    ensures Requested(Askable(reqs), fd) == if fd >= 0 then Requested(reqs, fd) else {}
    ensures fd in Order(Askable(reqs)) <==> fd >= 0 && fd in Order(reqs)
  {
    if reqs != [] {
      AskableKeepsRequests(reqs[..|reqs| - 1], fd);
      AskableOneMore(reqs, fd);
    }
  }

  /** The descriptors of the requests, each once, in the order in which they were first asked for. */
  function Order(reqs: seq<Request>): seq<int> {
    if reqs == [] then []
    else
      var n := |reqs| - 1;
      var prev := Order(reqs[..n]);
      if reqs[n].0 in prev then prev else prev + [reqs[n].0]
  }

  lemma {:induction false} OrderListsEachOnce(reqs: seq<Request>)
    ensures NoDup(Order(reqs))
    ensures forall fd :: fd in Order(reqs) <==> exists i :: 0 <= i < |reqs| && reqs[i].0 == fd
  {
    if reqs != [] {
      var n := |reqs| - 1;
      OrderListsEachOnce(reqs[..n]);
      assert forall i :: 0 <= i < n ==> reqs[..n][i] == reqs[i];
      forall fd ensures fd in Order(reqs) <==> exists i :: 0 <= i < |reqs| && reqs[i].0 == fd {
        if fd in Order(reqs[..n]) {
          var i :| 0 <= i < n && reqs[..n][i].0 == fd;
          assert reqs[i].0 == fd;
        }
        if i :| 0 <= i < |reqs| && reqs[i].0 == fd {
          assert i < n ==> reqs[..n][i].0 == fd;
        }
      }
    }
  }

  lemma {:induction false} UnlistedIsUnrequested(reqs: seq<Request>, fd: int)
    requires fd !in Order(reqs)
    ensures Requested(reqs, fd) == {}
  {
    if reqs != [] {
      UnlistedIsUnrequested(reqs[..|reqs| - 1], fd);
    }
  }

  lemma RequestOneMore(reqs: seq<Request>, fd: int, m: Mask)
    ensures forall x :: Requested(reqs + [(fd, m)], x) == if x == fd then Requested(reqs, x) + m else Requested(reqs, x)
    ensures Order(reqs + [(fd, m)]) == if fd in Order(reqs) then Order(reqs) else Order(reqs) + [fd]
  {
    assert (reqs + [(fd, m)])[..|reqs|] == reqs;
    assert forall x :: Requested(reqs, x) + {} == Requested(reqs, x);
  }

  // The poll(2) set: a vector searched linearly

  /** The vector lists the requested descriptors in the order of the requests, each with all it was asked for. */
  ghost predicate IsPollSet(v: seq<(int, Mask)>, reqs: seq<Request>) {
    && |v| == |Order(reqs)|
    && forall i :: 0 <= i < |v| ==> v[i] == (Order(reqs)[i], Requested(reqs, Order(reqs)[i]))
  }

  lemma MergeRequest(v: seq<(int, Mask)>, reqs: seq<Request>, i: nat, ev: Mask)
    requires IsPollSet(v, reqs) && i < |v|
    ensures IsPollSet(v[i := (v[i].0, v[i].1 + ev)], reqs + [(v[i].0, ev)])
  {
    RequestOneMore(reqs, v[i].0, ev);
    OrderListsEachOnce(reqs);
    var order := Order(reqs);
    assert forall k :: 0 <= k < |order| && k != i ==> order[k] != order[i];
  }

  lemma AppendRequest(v: seq<(int, Mask)>, reqs: seq<Request>, fd: int, ev: Mask)
    requires IsPollSet(v, reqs) && forall j :: 0 <= j < |v| ==> v[j].0 != fd
    ensures IsPollSet(v + [(fd, ev)], reqs + [(fd, ev)])
  {
    RequestOneMore(reqs, fd, ev);
    var order := Order(reqs);
    assert forall k :: 0 <= k < |order| ==> order[k] == v[k].0;
    UnlistedIsUnrequested(reqs, fd);
    assert {} + ev == ev;
  }

  class PollSet {
    var v: seq<(int, Mask)>
    ghost var reqs: seq<Request>

    ghost predicate Valid()
      reads this
    {
      IsPollSet(v, reqs)
    }

    constructor ()
      ensures Valid() && reqs == []
    {
      v, reqs := [], [];
    }

    /** pth_pollset_add */
    method Add(fd: int, ev: Mask)
      requires Valid()
      modifies this
      ensures Valid() && reqs == old(reqs) + [(fd, ev)]
    {
      var i := 0;
      while i < |v|
        invariant 0 <= i <= |v| && v == old(v) && reqs == old(reqs)
        invariant forall j :: 0 <= j < i ==> v[j].0 != fd
      {
        if v[i].0 == fd {
          MergeRequest(v, reqs, i, ev);
          v := v[i := (fd, v[i].1 + ev)];
          reqs := reqs + [(fd, ev)];
          return;
        }
        i := i + 1;
      }
      AppendRequest(v, reqs, fd, ev);
      v := v + [(fd, ev)];
      reqs := reqs + [(fd, ev)];
    }
  }

  // Kernel answers

  datatype Event = IN | OUT | PRI | HUP | ERR | NVAL

  datatype Verdict = Pending | Occurred | Failed

  function ToKernel(m: Mask): set<Event> {
    (if R in m then {IN} else {}) + (if W in m then {OUT} else {}) + (if E in m then {PRI} else {})
  }

  /** pth_evp_from_epoll */
  function FromEpoll(e: set<Event>): Mask {
    (if e * {IN, HUP, ERR} != {} then {R} else {}) + (if e * {OUT, HUP, ERR} != {} then {W} else {})
    + if PRI in e then {E} else {}
  }

  /** What the kernel reports for an open descriptor in condition `level` that is watched for `m`. */
  function Reported(level: set<Event>, m: Mask): set<Event> {
    level * (ToKernel(m) + {HUP, ERR})
  }

  /** poll(2): a closed descriptor is reported as invalid. */
  function Revents(open: bool, level: set<Event>, m: Mask): set<Event> {
    if open then Reported(level, m) else {NVAL}
  }

  /** Late handling of a descriptor event after poll(2) */
  function PollVerdict(goal: Mask, re: set<Event>): Verdict {
    if || (R in goal && re * {IN, HUP, ERR} != {})
       || (W in goal && re * {OUT, ERR, HUP} != {})
       || (E in goal && PRI in re) then Occurred
    else if NVAL in re then Failed
    else Pending
  }

  /** Late handling of a descriptor event from the readiness cache */
  function CacheVerdict(goal: Mask, re: Mask): Verdict {
    if (R in goal && R in re) || (W in goal && W in re) || (E in goal && E in re) then Occurred
    else if FAIL in re then Failed
    else Pending
  }

  /** A hang-up or an error makes a descriptor both readable and writeable. */
  predicate InState(level: set<Event>, flag: Flag) {
    match flag
    case R => IN in level || HUP in level || ERR in level
    case W => OUT in level || HUP in level || ERR in level
    case E => PRI in level
    case FAIL => false
  }

  /**
   A descriptor event occurs exactly if its descriptor is open and in a state it waits for, and fails
   exactly if the descriptor is closed, whatever else is wanted of the descriptor.
   */
  lemma VerdictIsExact(goal: Mask, want: Mask, open: bool, level: set<Event>)
    requires NVAL !in level && goal <= want
    ensures var v := PollVerdict(goal, Revents(open, level, want));
            && (v == Occurred <==> open && exists f :: f in goal && InState(level, f))
            && (v == Failed <==> !open)
  {
    var re := Revents(open, level, want);
    assert re * {IN, HUP, ERR} != {} <==> IN in re || HUP in re || ERR in re by {
      assert forall x :: x in re * {IN, HUP, ERR} <==> x in re && (x == IN || x == HUP || x == ERR);
    }
    assert re * {OUT, ERR, HUP} != {} <==> OUT in re || HUP in re || ERR in re by {
      assert forall x :: x in re * {OUT, ERR, HUP} <==> x in re && (x == OUT || x == HUP || x == ERR);
    }
    if open {
      assert R in goal ==> (IN in re <==> IN in level);
      assert W in goal ==> (OUT in re <==> OUT in level);
      assert E in goal ==> (PRI in re <==> PRI in level);
      assert (HUP in re <==> HUP in level) && (ERR in re <==> ERR in level);
      assert exists f :: f in goal && InState(level, f) <==>
        (R in goal && InState(level, R)) || (W in goal && InState(level, W)) || (E in goal && InState(level, E));
    }
  }

  /**
   A descriptor event ends the same way on both backends: when the kernel watches the descriptor for
   everything wanted of it, and when a closed descriptor is flagged as failed.
   */
  lemma VerdictsAgree(goal: Mask, want: Mask, open: bool, level: set<Event>)
    requires NVAL !in level
    ensures CacheVerdict(goal, if open then FromEpoll(Reported(level, want)) else {FAIL})
         == PollVerdict(goal, Revents(open, level, want))
  {
    var re := Reported(level, want);
    assert (re * {OUT, HUP, ERR} != {}) == (re * {OUT, ERR, HUP} != {}) by {
      assert {OUT, HUP, ERR} == {OUT, ERR, HUP};
    }
    assert {NVAL} * {IN, HUP, ERR} == {} && {NVAL} * {OUT, ERR, HUP} == {};
  }
}

/**
 The epoll registration cache of pth_sched.c. Each descriptor has a cache entry with two generation
 stamps; a pass collects what is wanted, commits the difference to the kernel and waits. Descriptors
 may be closed and reopened between any two calls, and closing one silently drops it from the kernel.
 */
module EpollCache {
  import opened Basics
  import opened Readiness

  const GENERATIONS := 0x1_0000_0000

  datatype Reg = Reg(gen: nat, rdygen: nat, want: Mask, regmask: Mask, ready: Mask, registered: bool)

  const BLANK := Reg(0, 0, {}, {}, {}, false)

  datatype Kernel = Kernel(open: set<int>, interest: map<int, Mask>)

  datatype Errno = Ok | EEXIST | ENOENT | EBADF

  function Watch(k: Kernel, fd: int): Option<Mask> {
    if fd in k.interest then Some(k.interest[fd]) else None
  }

  /** epoll_ctl(2) on pollable descriptors */
  function EpollAdd(k: Kernel, fd: int, m: Mask): (Kernel, Errno) {
    if fd !in k.open then (k, EBADF)
    else if fd in k.interest then (k, EEXIST)
    else (k.(interest := k.interest[fd := m]), Ok)
  }

  function EpollMod(k: Kernel, fd: int, m: Mask): (Kernel, Errno) {
    if fd !in k.open then (k, EBADF)
    else if fd !in k.interest then (k, ENOENT)
    else (k.(interest := k.interest[fd := m]), Ok)
  }

  function EpollDel(k: Kernel, fd: int): (Kernel, Errno) {
    if fd !in k.open then (k, EBADF)
    else if fd !in k.interest then (k, ENOENT)
    else (k.(interest := k.interest - {fd}), Ok)
  }

  // What a commit does to one descriptor

  function Fail(r: Reg, gen: nat): Reg { r.(ready := {FAIL}, rdygen := gen) }

  /** pth_evp_ctl, as seen by its descriptor */
  function CtlSlice(r: Reg, open: bool, watch: Option<Mask>, force: bool, gen: nat): (Reg, Option<Mask>) {
    if !r.registered then
      if open then (r.(registered := true, regmask := r.want), Some(r.want)) else (Fail(r, gen), watch)
    else if r.regmask != r.want || force then
      if open then (r.(regmask := r.want), Some(r.want))
      else (Fail(r.(registered := false, regmask := {}), gen), watch)
    else (r, watch)
  }

  /** The second loop of pth_evp_commit, as seen by one descriptor */
  function SweepSlice(r: Reg, watch: Option<Mask>, gen: nat): (Reg, Option<Mask>) {
    if r.gen != gen || !r.registered then
      (r.(registered := false, regmask := {}), if r.registered then None else watch)
    else (r, watch)
  }

  function CommitSlice(r: Reg, open: bool, watch: Option<Mask>, force: bool, gen: nat): (Reg, Option<Mask>) {
    var (r1, watch1) := if r.gen == gen then CtlSlice(r, open, watch, force, gen) else (r, watch);
    SweepSlice(r1, watch1, gen)
  }

  /** The kernel watches only open descriptors the cache knows about, for the mask the cache recorded. */
  predicate SliceOk(r: Reg, open: bool, watch: Option<Mask>) {
    && (watch.Some? ==> open && r.registered && r.regmask == watch.value)
    && (!r.registered ==> r.regmask == {})
  }

  /** The commit looks at the kernel's view of the descriptor, rather than trusting the cache. */
  predicate Checked(r: Reg, force: bool) {
    force || !r.registered || r.regmask != r.want
  }

  /**
   After a commit the kernel watches a descriptor only if it is wanted and open, and then for exactly
   the wanted mask. It misses a wanted open descriptor exactly if that was closed and reopened behind
   the cache and the commit does not check. A wanted closed descriptor fails exactly if it is checked.
   */
  lemma CommitIsExact(r: Reg, open: bool, watch: Option<Mask>, force: bool, gen: nat)
    requires SliceOk(r, open, watch) && r.rdygen != gen
    ensures var (r', watch') := CommitSlice(r, open, watch, force, gen);
            var wanted := r.gen == gen;
            && SliceOk(r', open, watch')
            && (watch'.Some? ==> wanted && watch'.value == r.want)
            && (watch'.Some? <==> wanted && open && (watch.Some? || Checked(r, force)))
            && (r'.rdygen == gen <==> wanted && !open && Checked(r, force))
            && (r'.rdygen == gen ==> r'.ready == {FAIL} && !r'.registered)
            && (r'.registered <==> wanted && (open || !Checked(r, force)))
  {
  }

  /** A forced commit checks everything: the kernel watches exactly the wanted open descriptors. */
  lemma ForcedCommitIsComplete(r: Reg, open: bool, watch: Option<Mask>, gen: nat)
    requires SliceOk(r, open, watch) && r.rdygen != gen
    ensures var (r', watch') := CommitSlice(r, open, watch, true, gen);
            && watch' == (if r.gen == gen && open then Some(r.want) else None)
            && (r'.registered <==> watch'.Some?)
            && (r'.rdygen == gen <==> r.gen == gen && !open)
  {
    CommitIsExact(r, open, watch, true, gen);
  }

  /** The registered list names exactly the registered descriptors, once each. */
  ghost predicate ListExact(reg: seq<Reg>, reglist: seq<int>) {
    NoDup(reglist) && forall fd :: fd in reglist <==> 0 <= fd < |reg| && reg[fd].registered
  }

  ghost predicate CacheMatches(reg: seq<Reg>, k: Kernel) {
    && k.interest.Keys <= k.open
    && (forall fd :: fd in k.interest ==> 0 <= fd < |reg|)
    && (forall fd :: 0 <= fd < |reg| ==> SliceOk(reg[fd], fd in k.open, Watch(k, fd)))
  }

  /** A registered descriptor the kernel does not watch was closed since the last forced commit. */
  ghost predicate MissedAreSuspect(reg: seq<Reg>, k: Kernel, suspect: set<int>) {
    forall fd :: 0 <= fd < |reg| && reg[fd].registered && fd !in k.interest ==> fd in suspect
  }

  /** Entries that are new and blank, or keep their registration, change nothing about registrations. */
  lemma RegistrationsKept(reg: seq<Reg>, reg': seq<Reg>, reglist: seq<int>, k: Kernel, suspect: set<int>)
    requires ListExact(reg, reglist) && CacheMatches(reg, k) && MissedAreSuspect(reg, k, suspect)
    requires |reg| <= |reg'|
    requires forall fd :: 0 <= fd < |reg| ==> reg'[fd].registered == reg[fd].registered && reg'[fd].regmask == reg[fd].regmask
    requires forall fd :: |reg| <= fd < |reg'| ==> reg'[fd] == BLANK
    ensures ListExact(reg', reglist) && CacheMatches(reg', k) && MissedAreSuspect(reg', k, suspect)
  {
  }

  /** A stamp equals the generation exactly for the descriptors wanted, or answered, in this pass. */
  ghost predicate StampsOk(reg: seq<Reg>, gen: nat, touched: seq<int>, answers: map<int, Mask>) {
    && gen < GENERATIONS && (gen == 0 ==> reg == [] && touched == [])
    && (forall fd :: 0 <= fd < |reg| ==> reg[fd].gen <= gen && reg[fd].rdygen <= gen)
    && (forall fd :: fd in touched <==> 0 <= fd < |reg| && reg[fd].gen == gen)
    && (forall fd :: fd in answers <==> 0 <= fd < |reg| && reg[fd].rdygen == gen)
    && (forall fd :: fd in answers ==> reg[fd].ready == answers[fd])
  }

  /** What is wanted is what was requested, listed in the order of the requests. */
  ghost predicate WantsOk(reg: seq<Reg>, touched: seq<int>, reqs: seq<Request>) {
    && touched == Order(reqs)
    && forall fd :: fd in touched ==> 0 <= fd < |reg| && reg[fd].want == Requested(reqs, fd)
  }

  /** A generation that no entry has yet starts with nothing wanted and nothing answered. */
  lemma NothingStamped(reg: seq<Reg>, gen: nat)
    requires 0 < gen < GENERATIONS && forall fd :: 0 <= fd < |reg| ==> reg[fd].gen < gen && reg[fd].rdygen < gen
    ensures StampsOk(reg, gen, [], map[]) && WantsOk(reg, [], [])
  {
  }

  lemma FirstWantStamps(reg: seq<Reg>, gen: nat, touched: seq<int>, answers: map<int, Mask>, fd: int, mask: Mask)
    requires StampsOk(reg, gen, touched, answers) && gen > 0 && 0 <= fd < |reg|
    ensures StampsOk(reg[fd := reg[fd].(gen := gen, want := mask)], gen, touched + [fd], answers)
  {
  }

  lemma FirstWantWants(reg: seq<Reg>, gen: nat, touched: seq<int>, reqs: seq<Request>, fd: int, mask: Mask)
    requires WantsOk(reg, touched, reqs) && 0 <= fd < |reg| && fd !in touched
    ensures WantsOk(reg[fd := reg[fd].(gen := gen, want := mask)], touched + [fd], reqs + [(fd, mask)])
  {
    RequestOneMore(reqs, fd, mask);
    UnlistedIsUnrequested(reqs, fd);
    assert {} + mask == mask;
  }

  /** No entry changes its registration, and none is lost. */
  ghost predicate SameRegistrations(a: seq<Reg>, b: seq<Reg>) {
    |a| <= |b| && forall fd :: 0 <= fd < |a| ==> b[fd].registered == a[fd].registered && b[fd].regmask == a[fd].regmask
  }

  /** The cache takes a descriptor for registered with mask `m`, and the kernel does not watch it. */
  ghost predicate Missed(reg: seq<Reg>, k: Kernel, fd: int, m: Mask) {
    0 <= fd < |reg| && reg[fd].registered && reg[fd].regmask == m && fd !in k.interest
  }

  // Descriptors closed and opened by anybody, at any time

  datatype Change = Closed(fd: int) | Opened(fd: int)

  function Changed(k: Kernel, c: Change): Kernel {
    match c
    case Closed(fd) => Kernel(k.open - {fd}, k.interest - {fd})
    case Opened(fd) => k.(open := k.open + {fd})
  }

  function After(k: Kernel, changes: seq<Change>): Kernel {
    if changes == [] then k else Changed(After(k, changes[..|changes| - 1]), changes[|changes| - 1])
  }

  function ClosedIn(changes: seq<Change>): set<int> {
    set c | c in changes && c.Closed? :: c.fd
  }

  /** Changes add no interest, and leave a descriptor alone that they do not name. */
  ghost predicate LeftAlone(k: Kernel, k': Kernel, changes: seq<Change>, fd: int) {
    && (fd in k'.interest ==> fd in k.interest && k'.interest[fd] == k.interest[fd])
    && (Closed(fd) !in changes ==> Watch(k', fd) == Watch(k, fd))
    && (Closed(fd) !in changes && Opened(fd) !in changes ==> (fd in k'.open <==> fd in k.open))
  }

  lemma {:induction false} AfterAt(k: Kernel, changes: seq<Change>, fd: int)
    ensures LeftAlone(k, After(k, changes), changes, fd)
  {
    if changes != [] {
      var n := |changes| - 1;
      AfterAt(k, changes[..n], fd);
      assert changes[n] in changes && forall c :: c in changes[..n] ==> c in changes;
    }
  }

  lemma {:induction false} OpenAfterBoth(k0: Kernel, k: Kernel, before: seq<Change>, after: seq<Change>)
    requires k.open == After(k0, before).open
    ensures After(k, after).open == After(k0, before + after).open
  {
    if after == [] {
      assert before + after == before;
    } else {
      var n := |after| - 1;
      OpenAfterBoth(k0, k, before, after[..n]);
      assert (before + after)[..|before + after| - 1] == before + after[..n];
    }
  }

  // What the two loops of a commit have done so far

  /** The descriptors of `done` went through pth_evp_ctl, the others are as they were. */
  ghost predicate CtlDone(reg0: seq<Reg>, k0: Kernel, reg: seq<Reg>, k: Kernel, done: seq<int>, force: bool, gen: nat) {
    && |reg| == |reg0| && k.open == k0.open && (forall fd :: fd in k.interest ==> 0 <= fd < |reg|)
    && forall fd :: 0 <= fd < |reg| ==>
         (reg[fd], Watch(k, fd)) ==
         if fd in done then CtlSlice(reg0[fd], fd in k0.open, Watch(k0, fd), force, gen) else (reg0[fd], Watch(k0, fd))
  }

  /** Everything registered is listed, once; the list may still name descriptors that were dropped. */
  ghost predicate ListCovers(reg: seq<Reg>, reglist: seq<int>) {
    && NoDup(reglist) && (forall fd :: fd in reglist ==> 0 <= fd < |reg|)
    && (forall fd :: 0 <= fd < |reg| && reg[fd].registered ==> fd in reglist)
  }

  /** Those no longer listed went through the sweep, the others are as they were. */
  ghost predicate SweepDone(reg1: seq<Reg>, k1: Kernel, list1: seq<int>, reg: seq<Reg>, k: Kernel, reglist: seq<int>, gen: nat) {
    && |reg| == |reg1| && k.open == k1.open && (forall fd :: fd in k.interest ==> 0 <= fd < |reg|)
    && (forall fd :: 0 <= fd < |reg| && fd in list1 && fd !in reglist ==> reg1[fd].gen != gen || !reg1[fd].registered)
    && forall fd :: 0 <= fd < |reg| ==>
         (reg[fd], Watch(k, fd)) ==
         if fd in list1 && fd !in reglist then SweepSlice(reg1[fd], Watch(k1, fd), gen) else (reg1[fd], Watch(k1, fd))
  }

  function SwapOut(l: seq<int>, i: nat): seq<int>
    requires i < |l|
  {
    l[i := l[|l| - 1]][..|l| - 1]
  }

  lemma SwapOutDropsOne(l: seq<int>, i: nat)
    requires NoDup(l) && i < |l|
    ensures var r := SwapOut(l, i);
            && NoDup(r) && |r| == |l| - 1 && r[..i] == l[..i]
            && forall x :: x in r <==> x in l && x != l[i]
  {
    var n, r := |l| - 1, SwapOut(l, i);
    forall x ensures x in r <==> x in l && x != l[i] {
      if x in l && x != l[i] {
        var j :| 0 <= j < |l| && l[j] == x;
        assert r[if j == n then i else j] == x;
      }
      if x in r {
        var j :| 0 <= j < n && r[j] == x;
        assert l[if j == i then n else j] == x;
      }
    }
  }

  lemma CtlOneMore(reg0: seq<Reg>, k0: Kernel, reg1: seq<Reg>, k1: Kernel, done: seq<int>,
                   reg: seq<Reg>, k: Kernel, fd: int, force: bool, gen: nat)
    requires CtlDone(reg0, k0, reg1, k1, done, force, gen) && 0 <= fd < |reg1| && fd !in done
    requires k.open == k1.open && |reg| == |reg1| && (forall x :: x != fd ==> Watch(k, x) == Watch(k1, x))
    requires forall x :: 0 <= x < |reg1| && x != fd ==> reg[x] == reg1[x]
    requires (reg[fd], Watch(k, fd)) == CtlSlice(reg1[fd], fd in k1.open, Watch(k1, fd), force, gen)
    ensures CtlDone(reg0, k0, reg, k, done + [fd], force, gen)
  {
    forall x | x in k.interest ensures 0 <= x < |reg| {
      assert Watch(k, x).Some?;
      assert x != fd ==> Watch(k1, x).Some?;
    }
  }

  lemma CoverOneMore(reg1: seq<Reg>, list1: seq<int>, reg: seq<Reg>, reglist: seq<int>, fd: int)
    requires ListCovers(reg1, list1) && 0 <= fd < |reg1| && |reg| == |reg1|
    requires forall x :: 0 <= x < |reg1| && x != fd ==> reg[x] == reg1[x]
    requires reglist == if reg[fd].registered && !reg1[fd].registered then list1 + [fd] else list1
    requires reg[fd].registered && !reg1[fd].registered ==> fd !in list1
    ensures ListCovers(reg, reglist)
  {
  }

  lemma SweepOneMore(reg1: seq<Reg>, k1: Kernel, list1: seq<int>, reg2: seq<Reg>, k2: Kernel, list2: seq<int>,
                     reg: seq<Reg>, k: Kernel, reglist: seq<int>, fd: int, gen: nat)
    requires SweepDone(reg1, k1, list1, reg2, k2, list2, gen) && fd in list2 && fd in list1 && 0 <= fd < |reg2|
    requires reg2[fd].gen != gen || !reg2[fd].registered
    requires forall x :: x in reglist <==> x in list2 && x != fd
    requires k.open == k2.open && |reg| == |reg2| && (forall x :: x != fd ==> Watch(k, x) == Watch(k2, x))
    requires forall x :: 0 <= x < |reg2| && x != fd ==> reg[x] == reg2[x]
    requires (reg[fd], Watch(k, fd)) == SweepSlice(reg2[fd], Watch(k2, fd), gen)
    ensures SweepDone(reg1, k1, list1, reg, k, reglist, gen)
  {
    forall x | x in k.interest ensures 0 <= x < |reg| {
      assert Watch(k, x).Some?;
      assert x != fd ==> Watch(k2, x).Some?;
    }
  }

  /** Between the loops, the kernel still watches only open, registered descriptors. */
  lemma MidIsOk(reg0: seq<Reg>, k0: Kernel, reg: seq<Reg>, k: Kernel, touched: seq<int>, force: bool, gen: nat)
    requires CacheMatches(reg0, k0) && CtlDone(reg0, k0, reg, k, touched, force, gen)
    ensures forall fd :: 0 <= fd < |reg| && !reg[fd].registered ==> reg[fd].regmask == {}
    ensures forall fd :: fd in k.interest ==> fd in k.open && 0 <= fd < |reg|
  {
    forall fd | fd in k.interest ensures fd in k.open {
      assert SliceOk(reg0[fd], fd in k0.open, Watch(k0, fd)) && Watch(k, fd).Some?;
    }
    forall fd | 0 <= fd < |reg| && !reg[fd].registered ensures reg[fd].regmask == {} {
      assert SliceOk(reg0[fd], fd in k0.open, Watch(k0, fd));
    }
  }

  /** What a commit means for the descriptors, in terms of what was wanted and what is open. */
  lemma CommitMeans(reg0: seq<Reg>, k0: Kernel, reg: seq<Reg>, k: Kernel, force: bool, gen: nat, suspect: set<int>)
    requires Committed(reg0, k0, reg, k, force, gen) && CacheMatches(reg0, k0) && MissedAreSuspect(reg0, k0, suspect)
    requires forall fd :: 0 <= fd < |reg0| ==> reg0[fd].rdygen != gen
    ensures forall fd :: fd in k.interest ==> 0 <= fd < |reg0| && reg0[fd].gen == gen && k.interest[fd] == reg0[fd].want
    ensures forall fd :: 0 <= fd < |reg| && reg0[fd].gen == gen && (force || fd !in suspect) ==>
              if fd in k.open then fd in k.interest else reg[fd].rdygen == gen
    ensures forall fd :: 0 <= fd < |reg| && reg[fd].rdygen == gen ==>
              reg[fd].ready == {FAIL} && reg0[fd].gen == gen && fd !in k.open && !reg[fd].registered
  {
    forall fd | 0 <= fd < |reg|
      ensures fd in k.interest ==> reg0[fd].gen == gen && k.interest[fd] == reg0[fd].want
      ensures reg0[fd].gen == gen && (force || fd !in suspect) ==> if fd in k.open then fd in k.interest else reg[fd].rdygen == gen
      ensures reg[fd].rdygen == gen ==> reg[fd].ready == {FAIL} && reg0[fd].gen == gen && fd !in k.open && !reg[fd].registered
    {
      CommitIsExact(reg0[fd], fd in k0.open, Watch(k0, fd), force, gen);
    }
  }

  ghost function Answers(reg: seq<Reg>, gen: nat): map<int, Mask> {
    map fd | 0 <= fd < |reg| && reg[fd].rdygen == gen :: reg[fd].ready
  }

  lemma CommitKeepsStamps(reg0: seq<Reg>, reg: seq<Reg>, gen: nat, touched: seq<int>, reqs: seq<Request>)
    requires StampsOk(reg0, gen, touched, map[]) && WantsOk(reg0, touched, reqs) && |reg| == |reg0|
    requires forall fd :: 0 <= fd < |reg| ==> reg[fd].gen == reg0[fd].gen && reg[fd].want == reg0[fd].want
    requires forall fd :: 0 <= fd < |reg| ==> reg[fd].rdygen == reg0[fd].rdygen || reg[fd].rdygen == gen
    ensures StampsOk(reg, gen, touched, Answers(reg, gen)) && WantsOk(reg, touched, reqs)
  {
  }

  /** When the sweep is through, every descriptor is as the two loops together leave it. */
  lemma SweepFinishes(reg1: seq<Reg>, k1: Kernel, list1: seq<int>, reg: seq<Reg>, k: Kernel, reglist: seq<int>, gen: nat)
    requires SweepDone(reg1, k1, list1, reg, k, reglist, gen) && ListCovers(reg1, list1) && NoDup(reglist)
    requires forall fd :: fd in reglist ==> fd in list1 && reg1[fd].gen == gen && reg1[fd].registered
    requires forall fd :: 0 <= fd < |reg1| && !reg1[fd].registered ==> reg1[fd].regmask == {}
    ensures ListExact(reg, reglist)
    ensures forall fd :: 0 <= fd < |reg| ==> (reg[fd], Watch(k, fd)) == SweepSlice(reg1[fd], Watch(k1, fd), gen)
  {
    forall fd | 0 <= fd < |reg| ensures (reg[fd], Watch(k, fd)) == SweepSlice(reg1[fd], Watch(k1, fd), gen) {
      if fd !in list1 {
        assert !reg1[fd].registered && reg1[fd].regmask == {};
      }
    }
  }

  /** Ctl followed by sweep is the commit of a descriptor, and keeps everything in order. */
  ghost predicate Committed(reg0: seq<Reg>, k0: Kernel, reg: seq<Reg>, k: Kernel, force: bool, gen: nat) {
    && |reg| == |reg0| && k.open == k0.open && (forall fd :: fd in k.interest ==> 0 <= fd < |reg|)
    && forall fd :: 0 <= fd < |reg| ==>
         (reg[fd], Watch(k, fd)) == CommitSlice(reg0[fd], fd in k0.open, Watch(k0, fd), force, gen)
  }

  lemma LoopsCommit(reg0: seq<Reg>, k0: Kernel, reg1: seq<Reg>, k1: Kernel, reg: seq<Reg>, k: Kernel,
                    touched: seq<int>, force: bool, gen: nat)
    requires CtlDone(reg0, k0, reg1, k1, touched, force, gen)
    requires |reg| == |reg1| && k.open == k1.open && (forall fd :: fd in k.interest ==> 0 <= fd < |reg|)
    requires forall fd :: 0 <= fd < |reg| ==> (reg[fd], Watch(k, fd)) == SweepSlice(reg1[fd], Watch(k1, fd), gen)
    requires forall fd :: fd in touched <==> 0 <= fd < |reg0| && reg0[fd].gen == gen
    ensures Committed(reg0, k0, reg, k, force, gen)
  {
    forall fd | 0 <= fd < |reg|
      ensures (reg[fd], Watch(k, fd)) == CommitSlice(reg0[fd], fd in k0.open, Watch(k0, fd), force, gen)
    {
      assert fd in touched <==> reg0[fd].gen == gen;
    }
  }

  /** What the kernel misses, an unforced commit leaves missed if the same is wanted. */
  lemma CommitMisses(reg0: seq<Reg>, k0: Kernel, reg: seq<Reg>, k: Kernel, gen: nat, fd: int, m: Mask)
    requires Committed(reg0, k0, reg, k, false, gen) && Missed(reg0, k0, fd, m) && reg0[fd].gen == gen && reg0[fd].want == m
    ensures Missed(reg, k, fd, m)
  {
    assert Watch(k, fd) == None;
  }

  lemma CommittedIsOk(reg0: seq<Reg>, k0: Kernel, reg: seq<Reg>, k: Kernel, force: bool, gen: nat, suspect: set<int>)
    requires Committed(reg0, k0, reg, k, force, gen) && CacheMatches(reg0, k0) && MissedAreSuspect(reg0, k0, suspect)
    requires forall fd :: 0 <= fd < |reg0| ==> reg0[fd].rdygen != gen
    ensures CacheMatches(reg, k) && MissedAreSuspect(reg, k, if force then {} else suspect)
    ensures forall fd :: 0 <= fd < |reg| ==> reg[fd].gen == reg0[fd].gen && reg[fd].want == reg0[fd].want
    ensures forall fd :: 0 <= fd < |reg| ==> reg[fd].rdygen == reg0[fd].rdygen || reg[fd].rdygen == gen
  {
    forall fd | 0 <= fd < |reg|
      ensures SliceOk(reg[fd], fd in k.open, Watch(k, fd))
      ensures reg[fd].registered && fd !in k.interest ==> fd in suspect && !force
      ensures reg[fd].gen == reg0[fd].gen && reg[fd].want == reg0[fd].want
      ensures reg[fd].rdygen == reg0[fd].rdygen || reg[fd].rdygen == gen
    {
      CommitIsExact(reg0[fd], fd in k0.open, Watch(k0, fd), force, gen);
    }
    forall fd | fd in k.interest ensures fd in k.open {
      assert SliceOk(reg[fd], fd in k.open, Watch(k, fd));
    }
  }

  // Readiness of one pass

  lemma StoreStamps(reg: seq<Reg>, gen: nat, touched: seq<int>, answers: map<int, Mask>, fd: int, ready: Mask)
    requires StampsOk(reg, gen, touched, answers) && gen > 0 && 0 <= fd < |reg|
    ensures StampsOk(reg[fd := reg[fd].(ready := ready, rdygen := gen)], gen, touched, answers[fd := ready])
  {
  }

  ghost predicate Signalled(k: Kernel, level: int -> set<Event>, fd: int) {
    fd in k.interest && Reported(level(fd), k.interest[fd]) != {}
  }

  function Sources(events: seq<(int, set<Event>)>): seq<int> {
    seq(|events|, i requires 0 <= i < |events| => events[i].0)
  }

  function Stored(answers: map<int, Mask>, events: seq<(int, set<Event>)>): map<int, Mask> {
    if events == [] then answers
    else
      var n := |events| - 1;
      Stored(answers, events[..n])[events[n].0 := FromEpoll(events[n].1)]
  }

  lemma {:induction false} StoredAt(answers: map<int, Mask>, events: seq<(int, set<Event>)>, fd: int)
    requires NoDup(Sources(events))
    ensures var r := Stored(answers, events);
            && (fd in r <==> fd in answers || fd in Sources(events))
            && (fd in answers && fd !in Sources(events) ==> r[fd] == answers[fd])
            && forall i :: 0 <= i < |events| && events[i].0 == fd ==> fd in r && r[fd] == FromEpoll(events[i].1)
  {
    if events != [] {
      var n := |events| - 1;
      var sources := Sources(events);
      assert Sources(events[..n]) == sources[..n] && sources[n] == events[n].0;
      StoredAt(answers, events[..n], fd);
      var r := Stored(answers, events);
      forall i | 0 <= i < |events| && events[i].0 == fd ensures fd in r && r[fd] == FromEpoll(events[i].1) {
        assert i < n ==> sources[i] != sources[n] && events[..n][i] == events[i];
      }
    }
  }

  /** What epoll_wait(2) returns into a large enough vector: every watched descriptor with something to report, once. */
  ghost predicate IsReport(k: Kernel, level: int -> set<Event>, events: seq<(int, set<Event>)>) {
    && NoDup(Sources(events))
    && (forall fd :: fd in Sources(events) <==> Signalled(k, level, fd))
    && (forall i :: 0 <= i < |events| ==> events[i].0 in k.interest && events[i].1 == Reported(level(events[i].0), k.interest[events[i].0]))
  }

  /** Whoever has something to report is told, and the others keep their answer of this pass, if any. */
  ghost predicate Told(before: map<int, Mask>, after: map<int, Mask>, k: Kernel, level: int -> set<Event>, fd: int) {
    if Signalled(k, level, fd) then fd in after && after[fd] == FromEpoll(Reported(level(fd), k.interest[fd]))
    else if fd in before then fd in after && after[fd] == before[fd]
    else fd !in after
  }

  lemma ReportStored(answers: map<int, Mask>, k: Kernel, level: int -> set<Event>, events: seq<(int, set<Event>)>)
    requires IsReport(k, level, events)
    ensures forall fd :: Told(answers, Stored(answers, events), k, level, fd)
  {
    forall fd ensures Told(answers, Stored(answers, events), k, level, fd) {
      StoredAt(answers, events, fd);
      if Signalled(k, level, fd) {
        var i :| 0 <= i < |events| && Sources(events)[i] == fd;
        assert events[i].0 == fd;
      }
    }
  }

  /** The answer of the pass for one descriptor is the one poll(2) gives, whatever its threads wait for. */
  ghost predicate Agrees(answers: map<int, Mask>, k: Kernel, level: int -> set<Event>, want: Mask, fd: int) {
    forall goal :: CacheVerdict(goal, if fd in answers then answers[fd] else {})
                   == PollVerdict(goal, Revents(fd in k.open, level(fd), want))
  }

  lemma ToldAgrees(before: map<int, Mask>, after: map<int, Mask>, k: Kernel, level: int -> set<Event>, want: Mask, fd: int)
    requires Told(before, after, k, level, fd) && NVAL !in level(fd)
    requires fd in k.open ==> fd in k.interest && k.interest[fd] == want && fd !in before
    requires fd !in k.open ==> fd !in k.interest && fd in before && before[fd] == {FAIL}
    ensures Agrees(after, k, level, want, fd)
  {
    forall goal ensures CacheVerdict(goal, if fd in after then after[fd] else {})
                        == PollVerdict(goal, Revents(fd in k.open, level(fd), want))
    {
      VerdictsAgree(goal, want, fd in k.open, level(fd));
      assert FromEpoll({}) == {};
    }
  }

  /** A descriptor that nobody touched after the commit, and that the commit dealt with, is answered as by poll(2). */
  lemma PassAgrees(k: Kernel, k': Kernel, after: seq<Change>, failed: map<int, Mask>, answers: map<int, Mask>,
                   level: int -> set<Event>, want: Mask, fd: int)
    requires LeftAlone(k, k', after, fd) && Closed(fd) !in after && Opened(fd) !in after
    requires Told(failed, answers, k', level, fd) && NVAL !in level(fd)
    requires fd in k.interest ==> fd in k.open && k.interest[fd] == want
    requires fd in failed ==> failed[fd] == {FAIL} && fd !in k.open
    requires if fd in k.open then fd in k.interest else fd in failed
    ensures Agrees(answers, k', level, want, fd) && (fd in k'.open ==> fd in k'.interest)
  {
    assert Watch(k', fd) == Watch(k, fd);
    ToldAgrees(failed, answers, k', level, want, fd);
  }

  lemma OneMoreChange(k: Kernel, changes: seq<Change>, i: nat)
    requires i < |changes|
    ensures After(k, changes[..i + 1]) == Changed(After(k, changes[..i]), changes[i])
    ensures ClosedIn(changes[..i + 1]) == ClosedIn(changes[..i]) + if changes[i].Closed? then {changes[i].fd} else {}
  {
    assert changes[..i + 1][..i] == changes[..i] && changes[..i + 1] == changes[..i] + [changes[i]];
  }

  /** Nothing is answered in a pass but what it asked for. */
  lemma AnsweredWasAsked(failed: map<int, Mask>, answers: map<int, Mask>, k: Kernel, level: int -> set<Event>, asked: seq<int>)
    requires forall fd :: Told(failed, answers, k, level, fd)
    requires (forall fd :: fd in failed ==> fd in asked) && (forall fd :: fd in k.interest ==> fd in asked)
    ensures forall fd :: fd in answers ==> fd in asked
  {
    forall fd | fd in answers ensures fd in asked {
      assert Told(failed, answers, k, level, fd);
    }
  }

  class EvPort {
    var reg: seq<Reg>
    var gen: nat
    var touched: seq<int>
    var reglist: seq<int>
    var force: bool
    var kernel: Kernel
    ghost var reqs: seq<Request>      // what this pass has asked for so far
    ghost var answers: map<int, Mask>   // the readiness stored in this pass
    ghost var suspect: set<int>       // closed since the last forced commit

    ghost predicate Known(fd: int)
      reads this
    {
      0 <= fd < |reg|
    }

    /** What the cache says about registrations is right. */
    ghost predicate RegistrationsOk()
      reads this
    {
      ListExact(reg, reglist) && CacheMatches(reg, kernel) && MissedAreSuspect(reg, kernel, suspect)
    }

    ghost predicate Valid()
      reads this
    {
      RegistrationsOk() && StampsOk(reg, gen, touched, answers) && WantsOk(reg, touched, reqs)
    }

    /** pth_evp_init */
    constructor (open: set<int>)
      ensures Valid() && reg == [] && kernel == Kernel(open, map[]) && reglist == [] && answers == map[] && suspect == {}
    {
      reg, gen, touched, reglist, force := [], 0, [], [], false;
      kernel := Kernel(open, map[]);
      reqs, answers, suspect := [], map[], {};
    }

    // The environment

    method Change(c: Change)
      requires Valid()
      modifies this`kernel, this`suspect
      ensures Valid() && kernel == Changed(old(kernel), c)
      ensures suspect == if c.Closed? then old(suspect) + {c.fd} else old(suspect)
    {
      kernel := Changed(kernel, c);
      suspect := if c.Closed? then suspect + {c.fd} else suspect;
    }

    method Interfere(changes: seq<Change>)
      requires Valid()
      modifies this`kernel, this`suspect
      ensures Valid() && kernel == After(old(kernel), changes) && suspect == old(suspect) + ClosedIn(changes)
    {
      var i := 0;
      while i < |changes|
        invariant 0 <= i <= |changes| && Valid()
        invariant kernel == After(old(kernel), changes[..i]) && suspect == old(suspect) + ClosedIn(changes[..i])
      {
        OneMoreChange(old(kernel), changes, i);
        Change(changes[i]);
        i := i + 1;
      }
      assert changes[..i] == changes;
    }

    // One pass

    /** pth_evp_begin */
    method Begin()
      requires Valid()
      modifies this`gen, this`touched, this`force, this`reg, this`reqs, this`answers
      ensures Valid() && reqs == [] && answers == map[] && !force
      ensures gen > 0 && SameRegistrations(old(reg), reg)
    {
      gen := (gen + 1) % GENERATIONS;
      touched := [];
      force := false;
      if gen == 0 {
        ClearStamps();
        gen := 1;
        RegistrationsKept(old(reg), reg, reglist, kernel, suspect);
      }
      reqs, answers := [], map[];
      NothingStamped(reg, gen);
    }

    method ClearStamps()
      modifies this`reg
      ensures |reg| == |old(reg)|
      ensures forall fd :: 0 <= fd < |reg| ==> reg[fd] == old(reg)[fd].(gen := 0, rdygen := 0)
    {
      var i := 0;
      while i < |reg|
        invariant 0 <= i <= |reg| && |reg| == |old(reg)|
        invariant forall fd :: 0 <= fd < i ==> reg[fd] == old(reg)[fd].(gen := 0, rdygen := 0)
        invariant forall fd :: i <= fd < |reg| ==> reg[fd] == old(reg)[fd]
      {
        reg := reg[i := reg[i].(gen := 0, rdygen := 0)];
        i := i + 1;
      }
    }

    /** pth_evp_grow_reg */
    method Grow(fd: int)
      requires fd >= 0
      modifies this`reg
      ensures fd < |reg| && |old(reg)| <= |reg| && reg[..|old(reg)|] == old(reg)
      ensures forall x :: |old(reg)| <= x < |reg| ==> reg[x] == BLANK
    {
      if fd < |reg| {
        return;
      }
      var cap := if |reg| == 0 then 64 else |reg|;
      while cap <= fd
        invariant cap >= |reg| && cap > 0
        decreases fd + 1 - cap
      {
        cap := cap * 2;
      }
      reg := reg + seq(cap - |reg|, _ => BLANK);
    }

    /** Grow the cache without changing what it says. */
    method MakeKnown(fd: int)
      requires Valid() && gen > 0 && fd >= 0
      modifies this`reg
      ensures Valid() && Known(fd) && |old(reg)| <= |reg|
      ensures forall x :: 0 <= x < |reg| ==> reg[x] == if x < |old(reg)| then old(reg)[x] else BLANK
    {
      Grow(fd);
      assert forall x :: 0 <= x < |old(reg)| ==> reg[x] == old(reg)[x];
      RegistrationsKept(old(reg), reg, reglist, kernel, suspect);
    }

    /** The descriptor is wanted for the first time in this pass. */
    method WantFirst(fd: int, mask: Mask)
      requires Valid() && gen > 0 && Known(fd) && reg[fd].gen != gen
      modifies this`reg, this`touched, this`reqs
      ensures Valid() && reqs == old(reqs) + [(fd, mask)]
      ensures reg == old(reg)[fd := old(reg)[fd].(gen := gen, want := mask)]
    {
      FirstWantStamps(reg, gen, touched, answers, fd, mask);
      FirstWantWants(reg, gen, touched, reqs, fd, mask);
      reg := reg[fd := reg[fd].(gen := gen, want := mask)];
      RegistrationsKept(old(reg), reg, reglist, kernel, suspect);
      touched := touched + [fd];
      reqs := reqs + [(fd, mask)];
    }

    method WantMore(fd: int, mask: Mask)
      requires Valid() && gen > 0 && Known(fd) && reg[fd].gen == gen
      modifies this`reg, this`reqs
      ensures Valid() && reqs == old(reqs) + [(fd, mask)]
      ensures reg == old(reg)[fd := old(reg)[fd].(want := old(reg)[fd].want + mask)]
    {
      RequestOneMore(reqs, fd, mask);
      reg := reg[fd := reg[fd].(want := reg[fd].want + mask)];
      RegistrationsKept(old(reg), reg, reglist, kernel, suspect);
      reqs := reqs + [(fd, mask)];
    }

    /** pth_evp_want */
    method Want(fd: int, mask: Mask) returns (ok: bool)
      requires Valid() && gen > 0
      modifies this`reg, this`touched, this`reqs
      ensures Valid() && ok == (fd >= 0)
      ensures reqs == if ok then old(reqs) + [(fd, mask)] else old(reqs)
      ensures SameRegistrations(old(reg), reg)
    {
      if fd < 0 {
        return false;
      }
      MakeKnown(fd);
      ok := true;
      if reg[fd].gen != gen {
        WantFirst(fd, mask);
      } else {
        WantMore(fd, mask);
      }
    }

    // Committing a pass

    method KernelAdd(fd: int, m: Mask) returns (e: Errno)
      modifies this`kernel
      ensures (kernel, e) == EpollAdd(old(kernel), fd, m)
    {
      var r := EpollAdd(kernel, fd, m);
      kernel, e := r.0, r.1;
    }

    method KernelMod(fd: int, m: Mask) returns (e: Errno)
      modifies this`kernel
      ensures (kernel, e) == EpollMod(old(kernel), fd, m)
    {
      var r := EpollMod(kernel, fd, m);
      kernel, e := r.0, r.1;
    }

    method Register(fd: int)
      requires Known(fd)
      modifies this`reg, this`reglist
      ensures reg == old(reg)[fd := old(reg)[fd].(registered := true, regmask := old(reg)[fd].want)]
      ensures reglist == old(reglist) + [fd]
    {
      reg := reg[fd := reg[fd].(registered := true, regmask := reg[fd].want)];
      reglist := reglist + [fd];
    }

    /** pth_evp_ctl */
    method Ctl(fd: int)
      requires Known(fd) && (Watch(kernel, fd).Some? ==> fd in kernel.open)
      modifies this`reg, this`kernel, this`reglist
      ensures var (r, watch) := CtlSlice(old(reg)[fd], fd in old(kernel).open, Watch(old(kernel), fd), force, gen);
              && reg == old(reg)[fd := r] && Watch(kernel, fd) == watch
              && reglist == if r.registered && !old(reg)[fd].registered then old(reglist) + [fd] else old(reglist)
      ensures kernel.open == old(kernel).open && forall x :: x != fd ==> Watch(kernel, x) == Watch(old(kernel), x)
    {
      var r := reg[fd];
      if !r.registered {
        var e := KernelAdd(fd, r.want);
        if e == Ok {
          Register(fd);
        } else if e == EEXIST {
          e := KernelMod(fd, r.want);
          if e == Ok {
            Register(fd);
          }
        } else {
          reg := reg[fd := Fail(r, gen)];
        }
      } else if r.regmask != r.want || force {
        var e := KernelMod(fd, r.want);
        if e == ENOENT {
          e := KernelAdd(fd, r.want);
        }
        if e == Ok {
          reg := reg[fd := r.(regmask := r.want)];
        } else {
          reg := reg[fd := Fail(r.(registered := false, regmask := {}), gen)];
        }
      }
    }

    /** First loop of pth_evp_commit: every wanted descriptor, once */
    method CtlAll()
      requires Valid()
      modifies this`reg, this`kernel, this`reglist
      ensures CtlDone(old(reg), old(kernel), reg, kernel, touched, force, gen) && ListCovers(reg, reglist)
    {
      OrderListsEachOnce(reqs);
      var i := 0;
      while i < |touched|
        invariant 0 <= i <= |touched| && |reg| == |old(reg)| && forall x :: x in touched ==> 0 <= x < |old(reg)|
        invariant CtlDone(old(reg), old(kernel), reg, kernel, touched[..i], force, gen) && ListCovers(reg, reglist)
        invariant forall x :: x in reglist ==> x in old(reglist) || x in touched[..i]
      {
        var fd := touched[i];
        assert fd in touched && Known(fd);
        assert fd !in touched[..i];
        assert reg[fd] == old(reg)[fd] && Watch(kernel, fd) == Watch(old(kernel), fd);
        ghost var reg1, k1, list1 := reg, kernel, reglist;
        Ctl(fd);
        assert touched[..i + 1] == touched[..i] + [fd];
        CtlOneMore(old(reg), old(kernel), reg1, k1, touched[..i], reg, kernel, fd, force, gen);
        CoverOneMore(reg1, list1, reg, reglist, fd);
        i := i + 1;
      }
      assert touched[..i] == touched;
    }

    /** Second loop of pth_evp_commit: drop what is no longer wanted or no longer registered */
    method Sweep()
      requires ListCovers(reg, reglist)
      requires forall fd :: 0 <= fd < |reg| && !reg[fd].registered ==> reg[fd].regmask == {}
      requires forall fd :: fd in kernel.interest ==> fd in kernel.open && Known(fd)
      modifies this`reg, this`kernel, this`reglist
      ensures SweepDone(old(reg), old(kernel), old(reglist), reg, kernel, reglist, gen) && NoDup(reglist)
      ensures forall fd :: fd in reglist ==> fd in old(reglist) && old(reg)[fd].gen == gen && old(reg)[fd].registered
    {
      var i := 0;
      while i < |reglist|
        invariant 0 <= i <= |reglist| && NoDup(reglist) && |reg| == |old(reg)|
        invariant forall x :: x in reglist ==> x in old(reglist) && 0 <= x < |old(reg)|
        invariant SweepDone(old(reg), old(kernel), old(reglist), reg, kernel, reglist, gen)
        invariant forall x :: x in reglist[..i] ==> 0 <= x < |old(reg)| && old(reg)[x].gen == gen && old(reg)[x].registered
        invariant kernel.interest.Keys <= old(kernel).interest.Keys
        decreases |reglist| - i
      {
        var fd := reglist[i];
        assert fd in reglist && reg[fd] == old(reg)[fd] && Watch(kernel, fd) == Watch(old(kernel), fd);
        if reg[fd].gen != gen || !reg[fd].registered {
          ghost var reg1, k1, list1 := reg, kernel, reglist;
          if reg[fd].registered {
            kernel := EpollDel(kernel, fd).0;
          }
          reg := reg[fd := reg[fd].(registered := false, regmask := {})];
          SwapOutDropsOne(reglist, i);
          reglist := SwapOut(reglist, i);
          SweepOneMore(old(reg), old(kernel), old(reglist), reg1, k1, list1, reg, kernel, reglist, fd, gen);
        } else {
          assert reglist[..i + 1] == reglist[..i] + [fd];
          i := i + 1;
        }
      }
      assert reglist[..i] == reglist;
    }

    /** The forced pass of the revalidation heartbeat */
    method ForceCheck()
      requires Valid()
      modifies this`force
      ensures Valid() && force
    {
      force := true;
    }

    method BothLoops()
      requires Valid()
      modifies this`reg, this`kernel, this`reglist
      ensures Committed(old(reg), old(kernel), reg, kernel, force, gen) && ListExact(reg, reglist)
    {
      CtlAll();
      ghost var reg1, k1, list1 := reg, kernel, reglist;
      MidIsOk(old(reg), old(kernel), reg1, k1, touched, force, gen);
      Sweep();
      SweepFinishes(reg1, k1, list1, reg, kernel, reglist, gen);
      LoopsCommit(old(reg), old(kernel), reg1, k1, reg, kernel, touched, force, gen);
    }

    /** pth_evp_commit */
    method Commit()
      requires Valid() && answers == map[]
      modifies this`reg, this`kernel, this`reglist, this`answers, this`suspect
      ensures Valid() && kernel.open == old(kernel).open && suspect == if force then {} else old(suspect)
      // the kernel watches only what is wanted, for exactly the mask that is wanted
      ensures forall fd :: fd in kernel.interest ==> fd in touched && kernel.interest[fd] == Requested(reqs, fd)
      // whoever is told to fail is wanted, closed and no longer registered
      ensures forall fd :: fd in answers ==> answers[fd] == {FAIL} && fd in touched && fd !in kernel.open && fd !in reglist
      // the kernel watches everything wanted and open, and everything wanted and closed is told to fail,
      // if the commit is forced or the descriptor was not closed since the last forced one
      ensures forall fd :: fd in touched && (force || fd !in old(suspect)) ==>
                if fd in kernel.open then fd in kernel.interest else fd in answers
      ensures Committed(old(reg), old(kernel), reg, kernel, force, gen)
    {
      ghost var reg0, k0 := reg, kernel;
      assert forall fd :: 0 <= fd < |reg0| ==> reg0[fd].rdygen != gen;
      BothLoops();
      CommittedIsOk(reg0, k0, reg, kernel, force, gen, suspect);
      CommitKeepsStamps(reg0, reg, gen, touched, reqs);
      CommitMeans(reg0, k0, reg, kernel, force, gen, suspect);
      suspect := if force then {} else suspect;
      answers := Answers(reg, gen);
    }

    // Waiting for the kernel

    /** pth_evp_wait, once the kernel has reported */
    method Wait(ghost level: int -> set<Event>, events: seq<(int, set<Event>)>)
      requires Valid() && gen > 0
      requires IsReport(kernel, level, events)
      modifies this`reg, this`answers
      ensures Valid()
      ensures forall fd :: Told(old(answers), answers, kernel, level, fd)
      ensures SameRegistrations(old(reg), reg)
    {
      var i := 0;
      while i < |events|
        invariant 0 <= i <= |events| && Valid() && |reg| == |old(reg)| && SameRegistrations(old(reg), reg)
        invariant answers == Stored(old(answers), events[..i])
      {
        assert events[..i + 1][..i] == events[..i] && events[i].0 in kernel.interest;
        if 0 <= events[i].0 < |reg| {
          Store(events[i].0, FromEpoll(events[i].1));
        }
        i := i + 1;
      }
      assert events[..i] == events;
      ReportStored(old(answers), kernel, level, events);
    }

    method Store(fd: int, ready: Mask)
      requires Valid() && gen > 0 && Known(fd)
      modifies this`reg, this`answers
      ensures Valid() && answers == old(answers)[fd := ready] && |reg| == |old(reg)| && SameRegistrations(old(reg), reg)
    {
      StoreStamps(reg, gen, touched, answers, fd, ready);
      reg := reg[fd := reg[fd].(ready := ready, rdygen := gen)];
      answers := answers[fd := ready];
      RegistrationsKept(old(reg), reg, reglist, kernel, suspect);
    }

    /** pth_evp_ready: readiness is never read from an earlier pass. */
    method Ready(fd: int) returns (ready: Mask)
      requires Valid() && gen > 0
      ensures ready == if fd in answers then answers[fd] else {}
    {
      if 0 <= fd < |reg| && reg[fd].rdygen == gen {
        return reg[fd].ready;
      }
      return {};
    }

    /** A pass up to its commit */
    method Assemble(requests: seq<Request>, revalidate: bool, before: seq<Change>)
      requires Valid()
      modifies this`reg, this`gen, this`touched, this`force, this`kernel, this`reqs, this`answers, this`suspect
      ensures Valid() && gen > 0 && reqs == Askable(requests) && answers == map[] && force == revalidate
      ensures kernel == After(old(kernel), before) && suspect == old(suspect) + ClosedIn(before)
      ensures SameRegistrations(old(reg), reg)
    {
      Begin();
      Collect(requests);
      Interfere(before);
      if revalidate {
        ForceCheck();
      }
    }

    /** Everything of a pass up to the wait; descriptors may be closed and opened before the commit. */
    method Prepare(requests: seq<Request>, revalidate: bool, before: seq<Change>)
      requires Valid()
      modifies this`reg, this`gen, this`touched, this`reglist, this`force, this`kernel, this`reqs, this`answers, this`suspect
      ensures Valid() && gen > 0 && reqs == Askable(requests)
      ensures kernel.open == After(old(kernel), before).open
      ensures suspect == if revalidate then {} else old(suspect) + ClosedIn(before)
      ensures forall fd :: fd in kernel.interest ==> fd in Order(reqs) && kernel.interest[fd] == Requested(reqs, fd)
      ensures forall fd :: fd in answers ==> answers[fd] == {FAIL} && fd !in kernel.open && fd in Order(reqs)
      ensures forall fd :: fd in Order(reqs) && fd !in suspect ==> if fd in kernel.open then fd in kernel.interest else fd in answers
      ensures forall fd :: fd in Order(reqs) && !revalidate && Missed(old(reg), old(kernel), fd, Requested(reqs, fd)) ==>
                Missed(reg, kernel, fd, Requested(reqs, fd))
    {
      Assemble(requests, revalidate, before);
      ghost var reg0, k0 := reg, kernel;
      Commit();
      forall fd | fd in Order(reqs) && !revalidate && Missed(old(reg), old(kernel), fd, Requested(reqs, fd))
        ensures Missed(reg, kernel, fd, Requested(reqs, fd))
      {
        AfterAt(old(kernel), before, fd);
        CommitMisses(reg0, k0, reg, kernel, gen, fd, Requested(reqs, fd));
      }
    }

    /**
     The descriptor part of one pass of the event manager, answered by the kernel with `report`. Anybody
     may close and open descriptors before the commit and between the commit and the wait.
     */
    method Pass(requests: seq<Request>, revalidate: bool, before: seq<Change>, after: seq<Change>,
                ghost level: int -> set<Event>, report: Kernel -> seq<(int, set<Event>)>)
      requires Valid() && (forall fd :: NVAL !in level(fd)) && (forall k :: IsReport(k, level, report(k)))
      modifies this`reg, this`gen, this`touched, this`reglist, this`force, this`kernel, this`reqs, this`answers, this`suspect
      ensures Valid() && gen > 0 && reqs == Askable(requests)
      ensures kernel.open == After(old(kernel), before + after).open
      // `suspect` is what was closed since the last forced commit
      ensures suspect == (if revalidate then {} else old(suspect) + ClosedIn(before)) + ClosedIn(after)
      // every waiting thread gets the answer poll(2) would have given it
      ensures forall fd :: fd in Order(reqs) && fd !in suspect && Opened(fd) !in after ==>
                Agrees(answers, kernel, level, Requested(reqs, fd), fd)
      // the kernel watches only what is wanted, and all of it that is open
      ensures forall fd :: fd in kernel.interest ==> fd in Order(reqs) && kernel.interest[fd] == Requested(reqs, fd)
      ensures forall fd :: fd in Order(reqs) && fd !in suspect && Opened(fd) !in after && fd in kernel.open ==> fd in kernel.interest
      // nothing is answered that was not asked for
      ensures forall fd :: fd in answers ==> fd in Order(reqs)
      // but what it misses it goes on missing while the same is wanted and nothing is forced
      ensures forall fd :: fd in Order(reqs) && !revalidate && Missed(old(reg), old(kernel), fd, Requested(reqs, fd)) ==>
                Missed(reg, kernel, fd, Requested(reqs, fd))
    {
      Prepare(requests, revalidate, before);
      ghost var k, failed := kernel, answers;
      assert CacheMatches(reg, kernel);
      OpenAfterBoth(old(kernel), k, before, after);
      Finish(after, level, report);
      forall fd | fd in Order(reqs) && fd !in suspect && Opened(fd) !in after
        ensures Agrees(answers, kernel, level, Requested(reqs, fd), fd) && (fd in kernel.open ==> fd in kernel.interest)
      {
        assert LeftAlone(k, kernel, after, fd) && Told(failed, answers, kernel, level, fd);
        PassAgrees(k, kernel, after, failed, answers, level, Requested(reqs, fd), fd);
      }
      forall fd | fd in kernel.interest ensures fd in Order(reqs) && kernel.interest[fd] == Requested(reqs, fd) {
        assert LeftAlone(k, kernel, after, fd);
      }
      AnsweredWasAsked(failed, answers, kernel, level, Order(reqs));
      forall fd | Missed(old(reg), old(kernel), fd, Requested(reqs, fd)) ensures LeftAlone(k, kernel, after, fd) {
      }
    }

    /** The wait of a pass, and what happens before it */
    method Finish(after: seq<Change>, ghost level: int -> set<Event>, report: Kernel -> seq<(int, set<Event>)>)
      requires Valid() && gen > 0 && (forall k :: IsReport(k, level, report(k)))
      modifies this`reg, this`kernel, this`answers, this`suspect
      ensures Valid() && kernel == After(old(kernel), after) && suspect == old(suspect) + ClosedIn(after)
      ensures forall fd :: LeftAlone(old(kernel), kernel, after, fd)
      ensures forall fd :: Told(old(answers), answers, kernel, level, fd)
      ensures SameRegistrations(old(reg), reg)
    {
      Interfere(after);
      Wait(level, report(kernel));
      forall fd ensures LeftAlone(old(kernel), kernel, after, fd) {
        AfterAt(old(kernel), after, fd);
      }
    }

    method Collect(requests: seq<Request>)
      requires Valid() && gen > 0 && reqs == []
      modifies this`reg, this`touched, this`reqs
      ensures Valid() && reqs == Askable(requests) && SameRegistrations(old(reg), reg)
    {
      var i := 0;
      while i < |requests|
        invariant 0 <= i <= |requests| && Valid() && reqs == Askable(requests[..i]) && SameRegistrations(old(reg), reg)
      {
        assert requests[..i + 1][..i] == requests[..i];
        var ok := Want(requests[i].0, requests[i].1);
        i := i + 1;
      }
      assert requests[..i] == requests;
    }
  }

  /**
   A descriptor that the kernel misses stays missed, although it is wanted in every pass, over any
   number of passes that are not forced and want the same of it. Nothing is closed meanwhile.
   */
  method PassesStillMiss(port: EvPort, fd: int, m: Mask, passes: seq<seq<Request>>,
                         ghost level: int -> set<Event>, report: Kernel -> seq<(int, set<Event>)>)
    requires port.Valid() && Missed(port.reg, port.kernel, fd, m) && fd in port.kernel.open
    requires (forall x :: NVAL !in level(x)) && (forall k :: IsReport(k, level, report(k)))
    requires forall i :: 0 <= i < |passes| ==> fd in Order(Askable(passes[i])) && Requested(Askable(passes[i]), fd) == m
    modifies port
    ensures port.Valid() && Missed(port.reg, port.kernel, fd, m) && fd in port.kernel.open
    ensures passes != [] ==> port.reqs == Askable(passes[|passes| - 1])
  {
    var i := 0;
    while i < |passes|
      invariant 0 <= i <= |passes| && port.Valid() && Missed(port.reg, port.kernel, fd, m) && fd in port.kernel.open
      invariant i > 0 ==> port.reqs == Askable(passes[i - 1])
    {
      port.Pass(passes[i], false, [], [], level, report);
      i := i + 1;
    }
  }

  /**
   Watched in one pass, closed and reopened, and wanted with the same mask ever after: the descriptor
   is open and wanted in each of any number of further passes and the kernel watches it in none.
   */
  method ReopenedStaysMissed(fd: nat, m: Mask, n: nat, ghost level: int -> set<Event>, report: Kernel -> seq<(int, set<Event>)>)
    returns (port: EvPort)
    requires (forall x :: NVAL !in level(x)) && (forall k :: IsReport(k, level, report(k)))
    ensures port.Valid() && fd in port.kernel.open && fd !in port.kernel.interest
    ensures n > 0 ==> fd in Order(port.reqs) && Requested(port.reqs, fd) == m
  {
    port := WatchedThenReopened(fd, m, level, report);
    OneRequest(fd, m);
    PassesStillMiss(port, fd, m, seq(n, i => [(fd, m)]), level, report);
  }

  method WatchedThenReopened(fd: nat, m: Mask, ghost level: int -> set<Event>, report: Kernel -> seq<(int, set<Event>)>)
    returns (port: EvPort)
    requires (forall x :: NVAL !in level(x)) && (forall k :: IsReport(k, level, report(k)))
    ensures fresh(port) && port.Valid() && Missed(port.reg, port.kernel, fd, m) && fd in port.kernel.open
  {
    OneRequest(fd, m);
    port := new EvPort({fd});
    port.Pass([(fd, m)], false, [], [], level, report);
    assert fd in port.kernel.interest && port.kernel.interest[fd] == m;
    assert SliceOk(port.reg[fd], fd in port.kernel.open, Watch(port.kernel, fd));
    port.Change(Closed(fd));
    port.Change(Opened(fd));
  }

  lemma OneRequest(fd: nat, m: Mask)
    ensures var r := Askable([(fd, m)]); fd in Order(r) && Requested(r, fd) == m
  {
    assert [(fd, m)][..0] == [] && Askable([(fd, m)]) == [(fd, m)];
    RequestOneMore([], fd, m);
    assert [] + [(fd, m)] == [(fd, m)] && {} + m == m;
  }
}
