/**
 The order a thread queue promises its users: a sequence of (thread, priority) entries, highest
 priority first, equal priorities in order of arrival. The delta-encoded ring of `PriorityQueue`
 is proved to represent these sequences; the scheduler model works on them directly.
 */
module PriorityOrder {
  import opened Basics

  const PRIO_MAX := 5
  const PRIO_STD := 0

  datatype Entry<T> = Entry(thread: T, prio: int)

  ghost predicate Sorted<T>(s: seq<Entry<T>>) {
    forall i, j :: 0 <= i < j < |s| ==> s[i].prio >= s[j].prio
  }

  ghost predicate Distinct<T>(s: seq<Entry<T>>) {
    forall i, j :: 0 <= i < j < |s| ==> s[i].thread != s[j].thread
  }

  /** The threads of a queue, in queue order. */
  function Threads<T>(s: seq<Entry<T>>): (r: seq<T>)
    ensures |r| == |s|
    ensures forall i :: 0 <= i < |s| ==> r[i] == s[i].thread
  {
    seq(|s|, i requires 0 <= i < |s| => s[i].thread)
  }

  predicate Contains<T(==)>(s: seq<Entry<T>>, t: T) {
    exists i :: 0 <= i < |s| && s[i].thread == t
  }

  /** Where an entry of priority `prio` goes: behind every leading entry that is not below it. */
  function Rank<T>(s: seq<Entry<T>>, prio: int): (k: nat)
    ensures k <= |s|
    ensures forall i :: 0 <= i < k ==> s[i].prio >= prio
    ensures k < |s| ==> s[k].prio < prio
  {
    if s == [] || s[0].prio < prio then 0 else 1 + Rank(s[1..], prio)
  }

  function Insert<T>(s: seq<Entry<T>>, prio: int, t: T): seq<Entry<T>> {
    Splice(s, Rank(s, prio), Entry(t, prio))
  }

  function IndexOf<T(==)>(s: seq<Entry<T>>, t: T): (k: nat)
    ensures k <= |s|
    ensures k < |s| ==> s[k].thread == t
    ensures forall i :: 0 <= i < k ==> s[i].thread != t
  {
    if s == [] || s[0].thread == t then 0 else 1 + IndexOf(s[1..], t)
  }

  function Without<T(==)>(s: seq<Entry<T>>, t: T): seq<Entry<T>> {
    var k := IndexOf(s, t);
    if k < |s| then Cut(s, k) else s
  }

  function Raise<T>(s: seq<Entry<T>>): (r: seq<Entry<T>>)
    ensures |r| == |s|
    ensures forall i :: 0 <= i < |s| ==> r[i] == Entry(s[i].thread, s[i].prio + 1)
  {
    seq(|s|, i requires 0 <= i < |s| => Entry(s[i].thread, s[i].prio + 1))
  }

  /** The priority that puts a thread in front of everything queued. */
  function FavoritePrio<T>(s: seq<Entry<T>>): int {
    if s == [] then PRIO_MAX else s[0].prio + 1
  }

  function Favorite<T(==)>(s: seq<Entry<T>>, t: T): seq<Entry<T>> {
    if |s| <= 1 then s
    else var rest := Without(s, t); Insert(rest, FavoritePrio(rest), t)
  }

  // Insertion

  lemma {:induction false} InsertAt<T>(s: seq<Entry<T>>, prio: int, t: T, k: nat)
    requires Sorted(s) && k <= |s|
    requires k > 0 ==> s[k - 1].prio >= prio
    requires k < |s| ==> s[k].prio < prio
    ensures Insert(s, prio, t) == Splice(s, k, Entry(t, prio))
  {
    assert Rank(s, prio) == k;
  }

  /** Inserting keeps the queue sorted, keeps everybody else's order, and lands behind equals. */
  lemma {:induction false} InsertIsStable<T>(s: seq<Entry<T>>, prio: int, t: T)
    requires Sorted(s)
    ensures Sorted(Insert(s, prio, t))
    ensures exists k :: 0 <= k <= |s| && IsStableInsertAt(s, prio, t, Insert(s, prio, t), k)
  {
    var k := Rank(s, prio);
    var r := Insert(s, prio, t);
    forall i | k <= i < |s| ensures s[i].prio < prio {
      assert s[k].prio >= s[i].prio;
    }
    assert IsStableInsertAt(s, prio, t, r, k);
  }

  /** `r` is `s` with the new entry at `k`, everything not below it before, everything below after. */
  ghost predicate IsStableInsertAt<T>(s: seq<Entry<T>>, prio: int, t: T, r: seq<Entry<T>>, k: int) {
    && 0 <= k <= |s| && |r| == |s| + 1
    && r[..k] == s[..k] && r[k] == Entry(t, prio) && r[k + 1..] == s[k..]
    && (forall i :: 0 <= i < k ==> s[i].prio >= prio)
    && (forall i :: k <= i < |s| ==> s[i].prio < prio)
  }

  /** The stable sorted insertion is unique, so `Insert` is the only function with that property. */
  lemma {:induction false} StableInsertIsUnique<T>(s: seq<Entry<T>>, prio: int, t: T, r: seq<Entry<T>>, k: int)
    requires Sorted(s) && IsStableInsertAt(s, prio, t, r, k)
    ensures r == Insert(s, prio, t)
  {
    InsertAt(s, prio, t, k);
    SpliceParts(s, k, Entry(t, prio));
    assert r == r[..k] + [r[k]] + r[k + 1..];
  }

  // Removal

  lemma WithoutAt<T>(s: seq<Entry<T>>, t: T, k: nat)
    requires Distinct(s) && k < |s| && s[k].thread == t
    ensures Without(s, t) == Cut(s, k)
  {
    assert IndexOf(s, t) == k;
  }

  lemma {:induction false} WithoutKeepsOrder<T>(s: seq<Entry<T>>, t: T)
    requires Sorted(s) && Distinct(s)
    ensures Sorted(Without(s, t)) && Distinct(Without(s, t))
    ensures !Contains(Without(s, t), t)
  {
  }

  lemma InsertKeepsDistinct<T>(s: seq<Entry<T>>, prio: int, t: T)
    requires Distinct(s) && !Contains(s, t)
    ensures Distinct(Insert(s, prio, t))
  {
  }

  /** A thread that was not queued can be inserted and removed without leaving a trace. */
  lemma {:induction false} InsertThenWithout<T>(s: seq<Entry<T>>, prio: int, t: T)
    requires Distinct(s) && !Contains(s, t)
    ensures Without(Insert(s, prio, t), t) == s
  {
    var k, r := Rank(s, prio), Insert(s, prio, t);
    InsertKeepsDistinct(s, prio, t);
    WithoutAt(r, t, k);
  }

  // Favouring

  /** A favoured thread comes first and nobody else moves. */
  lemma {:induction false} InsertFavorite<T>(s: seq<Entry<T>>, t: T)
    requires Sorted(s)
    ensures Insert(s, FavoritePrio(s), t) == [Entry(t, FavoritePrio(s))] + s
    ensures Sorted(Insert(s, FavoritePrio(s), t))
  {
    InsertIsStable(s, FavoritePrio(s), t);
  }

  /** Nobody who comes later at a regular priority gets before a thread that was favoured into an empty queue. */
  lemma FavoredStaysFirst<T>(t: T, u: T, prio: int)
    requires prio <= PRIO_MAX
    ensures var q := Insert([], FavoritePrio<T>([]), t); |Insert(q, prio, u)| == 2 && Insert(q, prio, u)[0].thread == t
  {
    var q := Insert([], FavoritePrio<T>([]), t);
    assert q == [Entry(t, PRIO_MAX)];
    assert Rank(q, prio) == 1;
  }

  lemma {:induction false} FavoriteIsFirst<T>(s: seq<Entry<T>>, t: T)
    requires Sorted(s) && Distinct(s) && Contains(s, t)
    ensures Sorted(Favorite(s, t)) && Distinct(Favorite(s, t))
    ensures Threads(Favorite(s, t)) == [t] + Threads(Without(s, t))
  {
    var rest := Without(s, t);
    if |s| == 1 {
      assert rest == [] by { WithoutAt(s, t, 0); }
      assert Threads(s) == [t];
    } else {
      WithoutKeepsOrder(s, t);
      InsertFavorite(rest, t);
      InsertKeepsDistinct(rest, FavoritePrio(rest), t);
      assert Threads([Entry(t, FavoritePrio(rest))] + rest) == [t] + Threads(rest);
    }
  }

  // How often a thread is queued

  ghost function Count<T>(s: seq<Entry<T>>, t: T): nat {
    if s == [] then 0 else (if s[0].thread == t then 1 else 0) + Count(s[1..], t)
  }

  lemma {:induction false} CountContains<T>(s: seq<Entry<T>>, t: T)
    ensures Contains(s, t) <==> Count(s, t) > 0
  {
    if s != [] {
      CountContains(s[1..], t);
      assert forall i :: 1 <= i < |s| ==> s[i] == s[1..][i - 1];
      if Contains(s[1..], t) {
        var i :| 0 <= i < |s[1..]| && s[1..][i].thread == t;
        assert s[i + 1].thread == t;
      }
    }
  }

  lemma {:induction false} CountAppend<T>(a: seq<Entry<T>>, b: seq<Entry<T>>, t: T)
    ensures Count(a + b, t) == Count(a, t) + Count(b, t)
  {
    if a == [] {
      assert a + b == b;
    } else {
      CountAppend(a[1..], b, t);
      assert (a + b)[1..] == a[1..] + b;
    }
  }

  lemma CountSplit<T>(a: seq<Entry<T>>, e: Entry<T>, b: seq<Entry<T>>, u: T)
    ensures Count(a + [e] + b, u) == Count(a + b, u) + if u == e.thread then 1 else 0
  {
    CountAppend(a + [e], b, u);
    CountAppend(a, [e], u);
    CountAppend(a, b, u);
    assert [e][1..] == [];
  }

  lemma CountInsert<T>(s: seq<Entry<T>>, prio: int, t: T, u: T)
    ensures Count(Insert(s, prio, t), u) == Count(s, u) + if u == t then 1 else 0
  {
    var k := Rank(s, prio);
    SpliceParts(s, k, Entry(t, prio));
    assert s == s[..k] + s[k..];
    CountSplit(s[..k], Entry(t, prio), s[k..], u);
  }

  lemma CountWithout<T>(s: seq<Entry<T>>, t: T, u: T)
    requires Count(s, t) > 0
    ensures Count(Without(s, t), u) == Count(s, u) - if u == t then 1 else 0
  {
    CountContains(s, t);
    var k := IndexOf(s, t);
    CutParts(s, k);
    CountSplit(s[..k], s[k], s[k + 1..], u);
  }

  lemma CountFavorite<T>(s: seq<Entry<T>>, t: T, u: T)
    requires Count(s, t) > 0
    ensures Count(Favorite(s, t), u) == Count(s, u)
  {
    if |s| > 1 {
      CountWithout(s, t, u);
      CountInsert(Without(s, t), FavoritePrio(Without(s, t)), t, u);
    }
  }

  lemma {:induction false} CountRaise<T>(s: seq<Entry<T>>, u: T)
    ensures Count(Raise(s), u) == Count(s, u)
  {
    if s != [] {
      CountRaise(s[1..], u);
      assert Raise(s)[1..] == Raise(s[1..]);
    }
  }

  lemma {:induction false} CountThreads<T>(s: seq<Entry<T>>, u: T)
    ensures multiset(Threads(s))[u] == Count(s, u)
  {
    if s != [] {
      CountThreads(s[1..], u);
      assert Threads(s) == [s[0].thread] + Threads(s[1..]);
    }
  }

  lemma RaiseKeepsOrder<T>(s: seq<Entry<T>>)
    requires Sorted(s)
    ensures Sorted(Raise(s))
  {
  }
}
