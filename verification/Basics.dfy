/** Names and small sequence facts shared by the protocol models. */
module Basics {
  type Tid = int  // a thread, by the address of its control block
  type Sid = int  // a scheduler, i.e. one OS thread

  datatype Option<+T> = None | Some(value: T)

  /** The function `f` changed at one point. */
  function Set<K(==,!new), V>(f: K -> V, k: K, v: V): (g: K -> V)
    ensures forall x {:trigger g(x)} :: g(x) == if x == k then v else f(x)
  {
    x => if x == k then v else f(x)
  }

  ghost predicate NoDup<T>(q: seq<T>) {
    forall i, j :: 0 <= i < j < |q| ==> q[i] != q[j]
  }

  /** `s` with `x` put in at position `k`. */
  function Splice<X>(s: seq<X>, k: nat, x: X): (r: seq<X>)
    requires k <= |s|
    ensures |r| == |s| + 1
    ensures forall i {:trigger r[i]} :: 0 <= i <= |s| ==> r[i] == if i < k then s[i] else if i == k then x else s[i - 1]
  {
    seq(|s| + 1, i requires 0 <= i <= |s| => if i < k then s[i] else if i == k then x else s[i - 1])
  }

  lemma SpliceParts<X>(s: seq<X>, k: nat, x: X)
    requires k <= |s|
    ensures Splice(s, k, x) == s[..k] + [x] + s[k..]
  {
  }

  /** `s` with the element at position `k` taken out. */
  function Cut<X>(s: seq<X>, k: nat): (r: seq<X>)
    requires k < |s|
    ensures |r| == |s| - 1
    ensures forall i {:trigger r[i]} :: 0 <= i < |r| ==> r[i] == if i < k then s[i] else s[i + 1]
  {
    seq(|s| - 1, i requires 0 <= i < |s| - 1 => if i < k then s[i] else s[i + 1])
  }

  lemma CutParts<X>(s: seq<X>, k: nat)
    requires k < |s|
    ensures Cut(s, k) == s[..k] + s[k + 1..]
    ensures s == s[..k] + [s[k]] + s[k + 1..]
  {
  }

  /** `q` without the first occurrence of `t`, or `q` itself when there is none. */
  function Remove<T(==)>(q: seq<T>, t: T): (r: seq<T>)
    ensures t !in q ==> r == q
    ensures t in q ==> |r| == |q| - 1
    ensures forall x :: x in r ==> x in q
    ensures forall x :: x in q && x != t ==> x in r
  {
    if q == [] then []
    else if q[0] == t then q[1..]
    else [q[0]] + Remove(q[1..], t)
  }

  lemma {:induction false} RemoveAt<T>(q: seq<T>, t: T, k: nat)
    requires k < |q| && q[k] == t && forall i :: 0 <= i < k ==> q[i] != t
    ensures Remove(q, t) == Cut(q, k)
  {
    if k > 0 {
      RemoveAt(q[1..], t, k - 1);
    }
  }

  lemma {:induction false} RemoveKeepsNoDup<T>(q: seq<T>, t: T)
    requires NoDup(q)
    ensures NoDup(Remove(q, t)) && t !in Remove(q, t)
  {
    if t in q {
      var k :| 0 <= k < |q| && q[k] == t;
      RemoveAt(q, t, k);
    }
  }

  lemma AppendKeepsNoDup<T>(q: seq<T>, t: T)
    requires NoDup(q) && t !in q
    ensures NoDup(q + [t])
  {
  }

  lemma Someone<T>(s: set<T>) returns (x: T)
    requires s != {}
    ensures x in s
  {
    x :| x in s;
  }

  lemma PrefixSuffixDisjoint<T>(q: seq<T>, n: nat)
    requires NoDup(q) && n <= |q|
    ensures forall x :: x in q[..n] ==> x !in q[n..]
    ensures forall x :: x in q ==> x in q[..n] || x in q[n..]
  {
    assert q == q[..n] + q[n..];
  }

  function Reverse<T>(s: seq<T>): (r: seq<T>)
    ensures |r| == |s|
    ensures forall i :: 0 <= i < |s| ==> r[i] == s[|s| - 1 - i]
  {
    if s == [] then [] else Reverse(s[1..]) + [s[0]]
  }
}
