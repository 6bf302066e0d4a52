/**
 The vectored write of pth_high.c: the loop that mimics a blocking writev(2) on a non-blocking
 descriptor, and the cursor over the caller's vector that it advances after every partial write.
 */
module IoVectors {
  datatype Iovec = Iovec(base: int, len: nat)

  type Memory = int -> int

  function Bytes(mem: Memory, v: Iovec): seq<int> {
    seq(v.len, i => mem(v.base + i))
  }

  /** The bytes a vector denotes */
  function Flat(mem: Memory, v: seq<Iovec>): seq<int> {
    if v == [] then [] else Bytes(mem, v[0]) + Flat(mem, v[1..])
  }

  function Total(v: seq<Iovec>): nat {
    if v == [] then 0 else Total(v[..|v| - 1]) + v[|v| - 1].len
  }

  lemma {:induction false} FlatConcat(mem: Memory, v: seq<Iovec>, w: seq<Iovec>)
    ensures Flat(mem, v + w) == Flat(mem, v) + Flat(mem, w)
  {
    if v == [] {
      assert v + w == w;
    } else {
      calc {
        Flat(mem, v + w);
        { assert (v + w)[1..] == v[1..] + w; }
        Bytes(mem, v[0]) + Flat(mem, v[1..] + w);
        { FlatConcat(mem, v[1..], w); }
        Bytes(mem, v[0]) + (Flat(mem, v[1..]) + Flat(mem, w));
        Flat(mem, v) + Flat(mem, w);
      }
    }
  }

  lemma {:induction false} FlatLength(mem: Memory, v: seq<Iovec>)
    ensures |Flat(mem, v)| == Total(v)
  {
    if v != [] {
      var n := |v| - 1;
      FlatLength(mem, v[..n]);
      FlatConcat(mem, v[..n], v[n..]);
      assert v[..n] + v[n..] == v && Flat(mem, v[n..]) == Bytes(mem, v[n]);
    }
  }

  /** pth_writev_iov_bytes */
  method CountBytes(iov: array<Iovec>) returns (bytes: nat)
    ensures bytes == Total(iov[..])
  {
    bytes := 0;
    var i := 0;
    while i < iov.Length
      invariant 0 <= i <= iov.Length && bytes == Total(iov[..i])
    {
      assert iov[..i + 1][..i] == iov[..i];
      if iov[i].len > 0 {
        bytes := bytes + iov[i].len;
      }
      i := i + 1;
    }
    assert iov[..i] == iov[..];
  }

  function Drop(s: seq<int>, n: nat): seq<int> {
    if n == 0 then s else if n <= |s| then s[n..] else []
  }

  /** Stepping over a whole element */
  lemma DropElement(mem: Memory, v: seq<Iovec>, n: nat)
    requires v != [] && v[0].len <= n
    ensures Drop(Flat(mem, v), n) == Drop(Flat(mem, v[1..]), n - v[0].len)
  {
    assert |Bytes(mem, v[0])| == v[0].len;
  }

  /** Cutting an element short */
  lemma DropWithin(mem: Memory, v: seq<Iovec>, n: nat)
    requires v != [] && n < v[0].len
    ensures Flat(mem, v[0 := Iovec(v[0].base + n, v[0].len - n)]) == Drop(Flat(mem, v), n)
  {
    var w := Iovec(v[0].base + n, v[0].len - n);
    assert v[0 := w][1..] == v[1..];
    assert Bytes(mem, w) == Bytes(mem, v[0])[n..];
  }

  /** The vector without its first n bytes */
  function Advanced(v: seq<Iovec>, n: nat): seq<Iovec> {
    if v == [] || n == 0 then v
    else if v[0].len > n then v[0 := Iovec(v[0].base + n, v[0].len - n)]
    else Advanced(v[1..], n - v[0].len)
  }

  lemma {:induction false} AdvancedDenotesTheRest(mem: Memory, v: seq<Iovec>, n: nat)
    ensures Flat(mem, Advanced(v, n)) == Drop(Flat(mem, v), n)
  {
    if v != [] && n > 0 {
      if v[0].len > n {
        DropWithin(mem, v, n);
      } else {
        DropElement(mem, v, n);
        AdvancedDenotesTheRest(mem, v[1..], n - v[0].len);
      }
    }
  }

  /** The local vector: a pointer into the caller's vector or into the scratch copy, and a count */
  class Cursor {
    const caller: array<Iovec>
    const scratch: array<Iovec>
    var vec: array?<Iovec>
    var pos: nat
    var cnt: nat

    ghost predicate Valid()
      reads this
    {
      && caller != scratch && caller.Length <= scratch.Length
      && (vec == null ==> cnt == 0)
      && (vec != null ==> pos + cnt <= vec.Length && (vec == scratch || (vec == caller && pos == 0 && cnt == caller.Length)))
    }

    /** What is still to be written */
    ghost function Rest(): seq<Iovec>
      requires Valid()
      reads this, caller, scratch
    {
      if vec == null then caller[..]
      else if vec == scratch then scratch[pos..pos + cnt]
      else caller[..]
    }

    constructor (caller: array<Iovec>, scratch: array<Iovec>)
      requires caller != scratch && caller.Length <= scratch.Length
      ensures Valid() && this.caller == caller && this.scratch == scratch && Rest() == caller[..]
    {
      this.caller, this.scratch := caller, scratch;
      vec, pos, cnt := null, 0, 0;
    }

    /** pth_writev_iov_advance */
    method Advance(advance: nat)
      requires Valid()
      modifies this`vec, this`pos, this`cnt, scratch
      ensures Valid() && vec != null
      ensures Rest() == Advanced(old(Rest()), advance)
    {
      if vec == null && cnt == 0 {
        vec, pos, cnt := caller, 0, caller.Length;
      }
      if advance > 0 {
        if vec == caller && pos == 0 && cnt == caller.Length {
          CopyCaller();
        }
        StepOver(advance);
      }
    }

    method CopyCaller()
      requires Valid() && vec == caller
      modifies this`vec, this`pos, scratch
      ensures Valid() && vec == scratch && Rest() == caller[..]
    {
      vec, pos := scratch, 0;
      var i := 0;
      while i < caller.Length
        invariant 0 <= i <= caller.Length && vec == scratch && pos == 0
        invariant scratch[..i] == caller[..i] && caller[..] == old(caller[..])
      {
        scratch[i] := caller[i];
        i := i + 1;
      }
    }

    method StepOver(advance: nat)
      requires Valid() && vec == scratch
      modifies this`pos, this`cnt, scratch
      ensures Valid() && Rest() == Advanced(old(Rest()), advance)
    {
      var left: nat := advance;
      while cnt > 0 && left > 0
        invariant Valid() && Advanced(Rest(), left) == Advanced(old(Rest()), advance)
        decreases cnt
      {
        if scratch[pos].len > left {
          CutFirst(left);
          return;
        }
        left := DropFirst(left);
      }
    }

    method CutFirst(n: nat)
      requires Valid() && vec == scratch && cnt > 0 && scratch[pos].len > n > 0
      modifies scratch
      ensures Valid() && Rest() == Advanced(old(Rest()), n)
    {
      ghost var rest := Rest();
      assert rest[0] == scratch[pos];
      scratch[pos] := Iovec(scratch[pos].base + n, scratch[pos].len - n);
      assert Rest() == rest[0 := Iovec(rest[0].base + n, rest[0].len - n)];
    }

    method DropFirst(n: nat) returns (left: nat)
      requires Valid() && vec == scratch && cnt > 0 && 0 < n && scratch[pos].len <= n
      modifies this`pos, this`cnt
      ensures Valid() && cnt == old(cnt) - 1
      ensures Advanced(Rest(), left) == Advanced(old(Rest()), n)
    {
      ghost var rest := Rest();
      assert rest[0] == scratch[pos];
      left := n - scratch[pos].len;
      cnt := cnt - 1;
      pos := pos + 1;
      assert Rest() == rest[1..];
    }
  }
}

/** The write loop against any behaviour of the kernel and of the extra events. */
module VectorWrite {
  import opened IoVectors

  const UIO_MAXIOV := 1024

  /** The i-th writev(2) takes at most `n` bytes or fails; the i-th wait is ended by the extra event or not. */
  datatype Reply = Wrote(n: nat) | Failed

  datatype Env = Env(extra: bool, reply: nat -> Reply, cut: nat -> bool)

  datatype Outcome = Outcome(rv: int, written: nat, interrupted: bool)

  function Min(a: nat, b: nat): nat {
    if a < b then a else b
  }

  /** The loop on numbers of bytes only: `left` to go, `rv` done, `ready` if this attempt needs no wait first */
  function Loop(left: nat, rv: nat, ready: bool, i: nat, env: Env): Outcome
    decreases left
  {
    if !ready && env.extra && env.cut(i) then Outcome(-1, rv, true)
    else
      match env.reply(i)
      case Failed => Outcome(if rv == 0 then -1 else rv, rv, false)
      case Wrote(n) =>
        var s := Min(n, left);
        if 0 < s < left then Loop(left - s, rv + s, false, i + 1, env) else Outcome(rv + s, rv + s, false)
  }

  /** The cursor denotes exactly what is left after `done` bytes. */
  ghost predicate At(mem: Memory, flat: seq<int>, rest: seq<Iovec>, done: int) {
    0 <= done <= |flat| && Flat(mem, rest) == flat[done..]
  }

  lemma PartWritten(mem: Memory, flat: seq<int>, rest: seq<Iovec>, done: int, s: nat)
    requires At(mem, flat, rest, done) && done + s <= |flat|
    ensures s <= |Flat(mem, rest)| && flat[..done] + Flat(mem, rest)[..s] == flat[..done + s]
    ensures At(mem, flat, Advanced(rest, s), done + s)
  {
    AdvancedDenotesTheRest(mem, rest, s);
  }

  /**
   pth_writev_ev on a descriptor in blocking mode. `delivered` is what the kernel took from memory. The
   caller's vector is not in the frame, so it is not modified.
   */
  method Write(iov: array<Iovec>, scratch: array<Iovec>, ready: bool, env: Env, ghost mem: Memory)
    returns (rv: int, ghost interrupted: bool, ghost delivered: seq<int>)
    requires iov != scratch && (iov.Length <= UIO_MAXIOV ==> iov.Length <= scratch.Length)
    modifies scratch
    ensures Outcome(rv, |delivered|, interrupted) ==
            if 0 < iov.Length <= UIO_MAXIOV then Loop(Total(iov[..]), 0, ready, 0, env) else Outcome(-1, 0, false)
    ensures delivered <= Flat(mem, iov[..])
  {
    if !(0 < iov.Length <= UIO_MAXIOV) {
      return -1, false, [];
    }
    var nbytes := CountBytes(iov);
    FlatLength(mem, iov[..]);
    var cursor := new Cursor(iov, scratch);
    cursor.Advance(0);
    rv, interrupted, delivered := WriteAll(cursor, nbytes, ready, env, mem, Flat(mem, iov[..]));
  }

  const STACK_ENTRIES := 32

  /** Room in the scratch vector the source provides: it compares the number of entries with a size in bytes. */
  function ScratchEntries(iovcnt: nat, entrySize: nat): nat {
    if iovcnt > STACK_ENTRIES * entrySize then UIO_MAXIOV else STACK_ENTRIES
  }

  /** From 33 entries on the vector on the stack is too short, and from 32 entry sizes on it is no longer used. */
  lemma ScratchSufficesExactlyWhen(iovcnt: nat, entrySize: nat)
    requires 0 < iovcnt <= UIO_MAXIOV
    ensures iovcnt <= ScratchEntries(iovcnt, entrySize) <==> iovcnt <= STACK_ENTRIES || iovcnt > STACK_ENTRIES * entrySize
  {
  }

  /** The same with the scratch vector of the source, where that suffices. */
  method WriteWithOwnScratch(iov: array<Iovec>, entrySize: nat, ready: bool, env: Env, ghost mem: Memory)
    returns (rv: int, ghost interrupted: bool, ghost delivered: seq<int>)
    requires iov.Length <= STACK_ENTRIES || iov.Length > STACK_ENTRIES * entrySize || iov.Length > UIO_MAXIOV
    ensures Outcome(rv, |delivered|, interrupted) ==
            if 0 < iov.Length <= UIO_MAXIOV then Loop(Total(iov[..]), 0, ready, 0, env) else Outcome(-1, 0, false)
    ensures delivered <= Flat(mem, iov[..])
  {
    var scratch := new Iovec[ScratchEntries(iov.Length, entrySize)];
    rv, interrupted, delivered := Write(iov, scratch, ready, env, mem);
  }

  method WriteAll(cursor: Cursor, total: nat, ready: bool, env: Env, ghost mem: Memory, ghost flat: seq<int>)
    returns (rv: int, ghost interrupted: bool, ghost delivered: seq<int>)
    requires cursor.Valid() && At(mem, flat, cursor.Rest(), 0) && total == |flat|
    modifies cursor, cursor.scratch
    ensures Outcome(rv, |delivered|, interrupted) == Loop(total, 0, ready, 0, env)
    ensures delivered <= flat
  {
    rv, interrupted, delivered := 0, false, [];
    var n, i, nbytes := ready, 0, total;
    while true
      invariant cursor.Valid() && At(mem, flat, cursor.Rest(), rv)
      invariant delivered == flat[..rv] && nbytes == total - rv && !interrupted
      invariant Loop(total, 0, ready, 0, env) == Loop(nbytes, rv, n, i, env)
      decreases nbytes
    {
      if !n && env.extra && env.cut(i) {
        return -1, true, delivered;
      }
      var reply := env.reply(i);
      if reply == Failed {
        if rv == 0 {
          rv := -1;
        }
        return;
      }
      var s := Min(reply.n, nbytes);
      PartWritten(mem, flat, cursor.Rest(), rv, s);
      delivered := delivered + Flat(mem, cursor.Rest())[..s];
      rv := rv + s;
      if !(0 < s < nbytes) {
        return;
      }
      nbytes := nbytes - s;
      cursor.Advance(s);
      n, i := false, i + 1;
    }
  }

  // Which attempt ends the loop, and what the caller is told, from the kernel's replies alone

  /** What the first `k` attempts were ready to take. */
  function Taken(env: Env, k: nat): nat {
    if k == 0 then 0 else Taken(env, k - 1) + if env.reply(k - 1).Wrote? then env.reply(k - 1).n else 0
  }

  /** Before attempt `k` the caller had to wait, and the extra event ended that wait. */
  predicate CutAt(ready: bool, env: Env, k: nat) {
    env.extra && env.cut(k) && (k == 0 ==> !ready)
  }

  /** Attempt `k` made progress and left something to write. */
  predicate GoesOn(total: nat, ready: bool, env: Env, k: nat) {
    !CutAt(ready, env, k) && env.reply(k).Wrote? && env.reply(k).n > 0 && Taken(env, k + 1) < total
  }

  /** Attempt `e` is the first that does not go on. */
  ghost predicate EndsAt(total: nat, ready: bool, env: Env, e: nat) {
    !GoesOn(total, ready, env, e) && forall k :: 0 <= k < e ==> GoesOn(total, ready, env, k)
  }

  /** What attempt `e` leaves the caller with */
  function Answer(total: nat, ready: bool, env: Env, e: nat): Outcome {
    var done := Taken(env, e);
    if CutAt(ready, env, e) then Outcome(-1, done, true)
    else if env.reply(e).Failed? then Outcome(if e == 0 then -1 else done, done, false)
    else if done + env.reply(e).n < total then Outcome(done, done, false)
    else Outcome(total, total, false)
  }

  /** From attempt `k` on, which follows `Taken(env, k)` bytes, the loop ends at some attempt with that answer. */
  lemma {:induction false} LoopEnds(total: nat, ready: bool, env: Env, k: nat) returns (e: nat)
    requires (k == 0 || Taken(env, k) < total) && forall j :: 0 <= j < k ==> GoesOn(total, ready, env, j)
    requires k > 0 ==> Taken(env, k) >= k
    ensures EndsAt(total, ready, env, e)
    ensures Loop(total - Taken(env, k), Taken(env, k), k == 0 && ready, k, env) == Answer(total, ready, env, e)
    decreases total - Taken(env, k)
  {
    if GoesOn(total, ready, env, k) {
      e := LoopEnds(total, ready, env, k + 1);
    } else {
      e := k;
    }
  }

  lemma EndIsUnique(total: nat, ready: bool, env: Env, e: nat, f: nat)
    requires EndsAt(total, ready, env, e) && EndsAt(total, ready, env, f)
    ensures e == f
  {
  }

  /** The outcome of a write is the answer of the one attempt that ends it. */
  lemma WriteAnswers(total: nat, ready: bool, env: Env, e: nat)
    requires EndsAt(total, ready, env, e)
    ensures Loop(total, 0, ready, 0, env) == Answer(total, ready, env, e)
  {
    var f := LoopEnds(total, ready, env, 0);
    EndIsUnique(total, ready, env, e, f);
  }

  lemma {:induction false} ProgressTakes(total: nat, ready: bool, env: Env, e: nat)
    requires forall k :: 0 <= k < e ==> GoesOn(total, ready, env, k)
    ensures Taken(env, e) >= e
  {
    if e > 0 {
      ProgressTakes(total, ready, env, e - 1);
      assert GoesOn(total, ready, env, e - 1);
    }
  }

  /**
   An error is reported exactly if the extra event ended the wait before the last attempt, or nothing was
   written and the last attempt failed; a failure after some bytes reports those.
   */
  lemma ErrorIsReportedExactlyWhen(total: nat, ready: bool, env: Env, e: nat)
    requires EndsAt(total, ready, env, e)
    ensures var o := Loop(total, 0, ready, 0, env);
            && (o.interrupted <==> CutAt(ready, env, e))
            && (o.rv < 0 <==> o.interrupted || (o.written == 0 && env.reply(e).Failed?))
            && (!o.interrupted && env.reply(e).Failed? && o.written > 0 ==> o.rv == o.written)
            && (!o.interrupted && env.reply(e).Wrote? ==> o.rv == o.written)
  {
    WriteAnswers(total, ready, env, e);
    ProgressTakes(total, ready, env, e);
  }

  // What the count returned says about what was written

  /** The bytes delivered are the first rv bytes: none if an error is returned. */
  predicate CountsRight(o: Outcome) {
    o.written == if o.rv < 0 then 0 else o.rv
  }

  lemma {:induction false} CountIsLostOnlyByAnInterruption(left: nat, rv: nat, ready: bool, i: nat, env: Env)
    ensures var o := Loop(left, rv, ready, i, env);
            && rv <= o.written <= rv + left
            && (CountsRight(o) <==> !(o.interrupted && o.written > 0))
            && (o.interrupted ==> env.extra)
    decreases left
  {
    if !(!ready && env.extra && env.cut(i)) && env.reply(i).Wrote? {
      var s := Min(env.reply(i).n, left);
      if 0 < s < left {
        CountIsLostOnlyByAnInterruption(left - s, rv + s, false, i + 1, env);
      }
    }
  }

  /** A write that every kernel and every extra event leaves with the right count */
  ghost predicate AlwaysCountsRight(total: nat, extra: bool) {
    forall ready, env: Env :: env.extra == extra ==> CountsRight(Loop(total, 0, ready, 0, env))
  }

  /**
   The count is right whatever happens exactly if there is no extra event to end a later wait with
   EINTR, or nothing to split into two writes.
   */
  lemma CountIsRightExactlyWhen(total: nat, extra: bool)
    ensures AlwaysCountsRight(total, extra) <==> !extra || total <= 1
  {
    if !extra || total <= 1 {
      forall ready, env: Env | env.extra == extra ensures CountsRight(Loop(total, 0, ready, 0, env)) {
        CountIsLostOnlyByAnInterruption(total, 0, ready, 0, env);
      }
    } else {
      var env := Env(true, i => Wrote(1), i => i == 1);
      assert Loop(total - 1, 1, false, 1, env) == Outcome(-1, 1, true);
      assert !CountsRight(Loop(total, 0, true, 0, env));
    }
  }

  /** As writev(2) on a blocking descriptor: with no error, no interruption and some progress at every attempt, all is written. */
  lemma {:induction false} ProgressWritesAll(left: nat, rv: nat, ready: bool, i: nat, env: Env)
    requires !env.extra && forall k :: k >= i ==> env.reply(k).Wrote? && env.reply(k).n > 0
    ensures Loop(left, rv, ready, i, env) == Outcome(rv + left, rv + left, false)
    decreases left
  {
    var s := Min(env.reply(i).n, left);
    if 0 < s < left {
      ProgressWritesAll(left - s, rv + s, false, i + 1, env);
    }
  }
}
