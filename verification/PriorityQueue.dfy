/**
 The thread queues of the scheduler (pth_pqueue.c): a circular doubly linked list threaded through
 the control blocks. Only the head stores an absolute priority; every other node stores how far it
 lies below its predecessor, so that raising the whole queue is one increment.
 */
module PriorityQueue {
  import opened Basics
  import opened PriorityOrder

  /** The queue part of a control block; `id` is its address. */
  class Tcb {
    const id: Tid
    var qNext: Tcb?
    var qPrev: Tcb?
    var qPrio: int

    constructor (id: Tid)
      ensures this.id == id && qNext == null && qPrev == null && qPrio == 0
    {
      this.id := id;
      qNext, qPrev, qPrio := null, null, 0;
    }
  }

  datatype Direction = WalkPrev | WalkNext

  ghost function Zip(ring: seq<Tcb>, prios: seq<int>): (s: seq<Entry<Tcb>>)
    requires |ring| == |prios|
    ensures |s| == |ring|
    ensures forall i {:trigger s[i]} :: 0 <= i < |s| ==> s[i] == Entry(ring[i], prios[i])
  {
    seq(|ring|, i requires 0 <= i < |ring| => Entry(ring[i], prios[i]))
  }

  // The shape of a ring and the numbers stored in it

  ghost predicate NoDuplicates(ring: seq<Tcb>) {
    forall i, j :: 0 <= i < j < |ring| ==> ring[i] != ring[j]
  }

  ghost predicate Circular(ring: seq<Tcb>)
    reads ring`qNext, ring`qPrev
  {
    var n := |ring|;
    && (forall i {:trigger ring[i].qNext} :: 0 <= i < n - 1 ==> ring[i].qNext == ring[i + 1])
    && (forall i {:trigger ring[i].qPrev} :: 1 <= i < n ==> ring[i].qPrev == ring[i - 1])
    && (n > 0 ==> ring[n - 1].qNext == ring[0] && ring[0].qPrev == ring[n - 1])
  }

  /** An absolute priority at the head, non-negative drops behind it. */
  ghost predicate DeltaEncoded(ring: seq<Tcb>, prios: seq<int>)
    reads ring`qPrio
  {
    && |prios| == |ring|
    && (ring != [] ==> ring[0].qPrio == prios[0])
    && (forall i {:trigger ring[i].qPrio} :: 1 <= i < |ring| ==>
          ring[i].qPrio == prios[i - 1] - prios[i] && ring[i].qPrio >= 0)
  }

  /** Non-negative drops mean a non-increasing sequence of priorities. */
  lemma {:induction false} DropsDescend(ring: seq<Tcb>, prios: seq<int>, i: nat, j: nat)
    requires DeltaEncoded(ring, prios) && i <= j < |ring|
    ensures prios[i] >= prios[j]
    decreases j
  {
    if i < j {
      DropsDescend(ring, prios, i, j - 1);
      assert ring[j].qPrio >= 0;
    }
  }

  lemma RingSorted(ring: seq<Tcb>, prios: seq<int>)
    requires DeltaEncoded(ring, prios) && NoDuplicates(ring)
    ensures Sorted(Zip(ring, prios)) && Distinct(Zip(ring, prios))
  {
    forall i, j | 0 <= i < j < |ring| ensures prios[i] >= prios[j] {
      DropsDescend(ring, prios, i, j);
    }
  }

  lemma SpliceKeepsDeltas(ring: seq<Tcb>, prios: seq<int>, prio: int, t: Tcb, k: nat)
    requires |ring| == |prios| && 1 <= k <= |ring|
    requires ring[0].qPrio == prios[0]
    requires forall i {:trigger ring[i].qPrio} :: 1 <= i < |ring| && i != k ==>
               ring[i].qPrio == prios[i - 1] - prios[i] && ring[i].qPrio >= 0
    requires t.qPrio == prios[k - 1] - prio && t.qPrio >= 0
    requires k < |ring| ==> ring[k].qPrio == prio - prios[k] && ring[k].qPrio >= 0
    ensures DeltaEncoded(Splice(ring, k, t), Splice(prios, k, prio))
  {
  }

  lemma SpliceIsRing(ring: seq<Tcb>, t: Tcb, k: nat)
    requires 1 <= k <= |ring| && NoDuplicates(ring) && t !in ring
    requires forall i {:trigger ring[i].qNext} :: 0 <= i < |ring| - 1 && i != k - 1 ==> ring[i].qNext == ring[i + 1]
    requires forall i {:trigger ring[i].qPrev} :: 1 <= i < |ring| && i != k ==> ring[i].qPrev == ring[i - 1]
    requires ring[k - 1].qNext == t && t.qPrev == ring[k - 1]
    requires k < |ring| ==> t.qNext == ring[k] && ring[k].qPrev == t
    requires k < |ring| ==> ring[|ring| - 1].qNext == ring[0] && ring[0].qPrev == ring[|ring| - 1]
    requires k == |ring| ==> t.qNext == ring[0] && ring[0].qPrev == t
    ensures NoDuplicates(Splice(ring, k, t)) && Circular(Splice(ring, k, t))
  {
  }

  lemma CutIsRing(ring: seq<Tcb>, k: nat)
    requires 1 <= k < |ring| && NoDuplicates(ring)
    requires forall i {:trigger ring[i].qNext} :: 0 <= i < |ring| - 1 && i != k - 1 && i != k ==> ring[i].qNext == ring[i + 1]
    requires forall i {:trigger ring[i].qPrev} :: 1 <= i < |ring| && i != k && i != k + 1 ==> ring[i].qPrev == ring[i - 1]
    requires k + 1 < |ring| ==> ring[k - 1].qNext == ring[k + 1] && ring[k + 1].qPrev == ring[k - 1]
    requires k + 1 < |ring| ==> ring[|ring| - 1].qNext == ring[0] && ring[0].qPrev == ring[|ring| - 1]
    requires k + 1 == |ring| ==> ring[k - 1].qNext == ring[0] && ring[0].qPrev == ring[k - 1]
    ensures NoDuplicates(Cut(ring, k)) && Circular(Cut(ring, k))
  {
  }

  lemma CutMembers(ring: seq<Tcb>, k: nat)
    requires NoDuplicates(ring) && k < |ring|
    ensures forall x :: x in Cut(ring, k) <==> x in ring && x != ring[k]
  {
    CutParts(ring, k);
    assert forall i :: 0 <= i < |Cut(ring, k)| ==> Cut(ring, k)[i] != ring[k];
  }

  lemma SpliceMembers(ring: seq<Tcb>, t: Tcb, k: nat)
    requires k <= |ring|
    ensures forall x :: x in Splice(ring, k, t) <==> x in ring || x == t
  {
    SpliceParts(ring, k, t);
    assert ring == ring[..k] + ring[k..];
  }

  lemma CutKeepsDeltas(ring: seq<Tcb>, prios: seq<int>, k: nat)
    requires |ring| == |prios| && 1 <= k < |ring|
    requires ring[0].qPrio == prios[0]
    requires forall i {:trigger ring[i].qPrio} :: 1 <= i < |ring| && i != k && i != k + 1 ==>
               ring[i].qPrio == prios[i - 1] - prios[i] && ring[i].qPrio >= 0
    requires k + 1 < |ring| ==> ring[k + 1].qPrio == prios[k - 1] - prios[k + 1] && ring[k + 1].qPrio >= 0
    ensures DeltaEncoded(Cut(ring, k), Cut(prios, k))
  {
  }

  class PQueue {
    var head: Tcb?
    var num: int
    ghost var ring: seq<Tcb>   // the linked control blocks, head first
    ghost var prios: seq<int>  // their absolute priorities

    ghost predicate Valid()
      reads this, ring
    {
      && num == |ring|
      && head == (if ring == [] then null else ring[0])
      && NoDuplicates(ring)
      && Circular(ring)
      && DeltaEncoded(ring, prios)
    }

    ghost function Contents(): seq<Entry<Tcb>>
      requires |ring| == |prios|
      reads this
    {
      Zip(ring, prios)
    }

    constructor ()
      ensures Valid() && Contents() == [] && ring == []
    {
      head, num := null, 0;
      ring, prios := [], [];
    }

    /** Set the four links that put `t` between the last node and the head. */
    static method LinkBefore(head: Tcb, t: Tcb, ghost ring: seq<Tcb>)
      requires NoDuplicates(ring) && Circular(ring) && t !in ring && ring != [] && head == ring[0]
      modifies ring`qNext, ring`qPrev, t`qNext, t`qPrev
      ensures t.qNext == head
      ensures NoDuplicates(Splice(ring, 0, t)) && Circular(Splice(ring, 0, t))
    {
      t.qPrev := head.qPrev;
      t.qNext := head;
      t.qPrev.qNext := t;
      t.qNext.qPrev := t;
      assert forall i :: 1 <= i < |ring| ==> ring[i].qPrev == ring[i - 1];
    }

    /** Store an absolute priority in the new head and a drop in the old one. */
    static method StoreHead(prio: int, t: Tcb, ghost ring: seq<Tcb>, ghost prios: seq<int>)
      requires NoDuplicates(ring) && DeltaEncoded(ring, prios) && t !in ring && ring != []
      requires t.qNext == ring[0] && prios[0] < prio
      modifies ring`qPrio, t`qPrio
      ensures DeltaEncoded(Splice(ring, 0, t), Splice(prios, 0, prio))
    {
      t.qPrio := prio;
      t.qNext.qPrio := prio - t.qNext.qPrio;
    }

    /** Put `t` in front of the head. */
    method LinkAsHead(prio: int, t: Tcb)
      requires Valid() && t !in ring && ring != [] && prios[0] < prio
      modifies this, ring, t
      ensures Valid()
      ensures ring == Splice(old(ring), 0, t) && prios == Splice(old(prios), 0, prio)
    {
      LinkBefore(head, t, ring);
      StoreHead(prio, t, ring, prios);
      head := t;
      num := num + 1;
      ring, prios := Splice(ring, 0, t), Splice(prios, 0, prio);
    }

    /** Set the four links that put `t` behind node `c`, the `k`-th of the ring. */
    static method LinkBehind(c: Tcb, t: Tcb, ghost ring: seq<Tcb>, ghost k: nat)
      requires NoDuplicates(ring) && Circular(ring) && t !in ring
      requires 1 <= k <= |ring| && c == ring[k - 1]
      modifies ring`qNext, ring`qPrev, t`qNext, t`qPrev
      ensures t.qNext == ring[if k < |ring| then k else 0]
      ensures NoDuplicates(Splice(ring, k, t)) && Circular(Splice(ring, k, t))
    {
      assert k < |ring| ==> c.qNext == ring[k];
      t.qPrev := c;
      t.qNext := c.qNext;
      t.qPrev.qNext := t;
      t.qNext.qPrev := t;
      SpliceIsRing(ring, t, k);
    }

    /** Store the drop of `t` below its predecessor and shorten the drop of its successor, if any. */
    static method StoreDrop(p: int, prio: int, t: Tcb, head: Tcb, ghost ring: seq<Tcb>, ghost prios: seq<int>, ghost k: nat)
      requires NoDuplicates(ring) && DeltaEncoded(ring, prios) && t !in ring
      requires 1 <= k <= |ring| && head == ring[0] && t.qNext == ring[if k < |ring| then k else 0]
      requires prio <= p == prios[k - 1] && (k < |ring| ==> prios[k] < prio)
      modifies ring`qPrio, t`qPrio
      ensures DeltaEncoded(Splice(ring, k, t), Splice(prios, k, prio))
    {
      t.qPrio := p - prio;
      if t.qNext != head {
        t.qNext.qPrio := t.qNext.qPrio - t.qPrio;
      }
      SpliceKeepsDeltas(ring, prios, prio, t, k);
    }

    /** Put `t` behind node `c`, the `k`-th of the ring, whose absolute priority is `p`. */
    method LinkAfter(c: Tcb, p: int, prio: int, t: Tcb, ghost k: nat)
      requires Valid() && t !in ring
      requires 1 <= k <= |ring| && c == ring[k - 1] && p == prios[k - 1]
      requires prio <= p && (k < |ring| ==> prios[k] < prio)
      modifies this, ring, t
      ensures Valid()
      ensures ring == Splice(old(ring), k, t) && prios == Splice(old(prios), k, prio)
    {
      ghost var r, ps := Splice(ring, k, t), Splice(prios, k, prio);
      LinkBehind(c, t, ring, k);
      StoreDrop(p, prio, t, head, ring, prios, k);
      num := num + 1;
      ring, prios := r, ps;
    }

    method Insert(prio: int, t: Tcb)
      requires Valid() && t !in ring
      modifies this, ring, t
      ensures Valid()
      ensures Contents() == PriorityOrder.Insert(old(Contents()), prio, t)
      ensures forall x :: x in ring <==> x in old(ring) || x == t
    {
      RingSorted(ring, prios);
      ghost var k := 0;
      if head == null || num == 0 {
        t.qPrev := t;
        t.qNext := t;
        t.qPrio := prio;
        head := t;
        num := num + 1;
        ring, prios := Splice(ring, 0, t), Splice(prios, 0, prio);
      } else if head.qPrio < prio {
        LinkAsHead(prio, t);
      } else {
        var c := head;
        var p := c.qPrio;
        k := 1;
        while p - c.qNext.qPrio >= prio && c.qNext != head
          invariant 1 <= k <= |ring|
          invariant c == ring[k - 1] && p == prios[k - 1] && p >= prio
          decreases |ring| - k
        {
          c := c.qNext;
          p := p - c.qPrio;
          k := k + 1;
        }
        LinkAfter(c, p, prio, t, k);
      }
      SpliceIsInsert(old(ring), old(prios), prio, t, k);
      SpliceMembers(old(ring), t, k);
    }

    /** Unlink the only node. */
    method UnlinkOnly()
      requires Valid() && |ring| == 1
      modifies this, ring
      ensures Valid()
      ensures ring == [] && prios == []
    {
      head.qNext := null;
      head.qPrev := null;
      head.qPrio := 0;
      head := null;
      num := 0;
      ring, prios := [], [];
    }

    /** Unlink the head; its successor becomes the head and stores an absolute priority again. */
    method UnlinkHead()
      requires Valid() && |ring| > 1
      modifies this, ring
      ensures Valid()
      ensures ring == Cut(old(ring), 0) && prios == Cut(old(prios), 0)
    {
      var t := head;
      assert t.qNext == ring[1] && ring[1].qPrio == prios[0] - prios[1];
      t.qPrev.qNext := t.qNext;
      t.qNext.qPrev := t.qPrev;
      t.qNext.qPrio := t.qPrio - t.qNext.qPrio;
      t.qPrio := 0;
      head := t.qNext;
      num := num - 1;
      ring, prios := Cut(ring, 0), Cut(prios, 0);
    }

    /** Set the two links that skip `t`, the `k`-th node of the ring. */
    static method LinkAround(t: Tcb, ghost ring: seq<Tcb>, ghost k: nat)
      requires NoDuplicates(ring) && Circular(ring) && 1 <= k < |ring| && t == ring[k]
      modifies ring`qNext, ring`qPrev
      ensures t.qNext == ring[if k + 1 < |ring| then k + 1 else 0]
      ensures NoDuplicates(Cut(ring, k)) && Circular(Cut(ring, k))
    {
      assert t.qPrev == ring[k - 1] && (k + 1 < |ring| ==> t.qNext == ring[k + 1]);
      t.qPrev.qNext := t.qNext;
      t.qNext.qPrev := t.qPrev;
      CutIsRing(ring, k);
    }

    /** Let the successor of `t`, if any, take over the drop of `t`. */
    static method PassDrop(t: Tcb, head: Tcb, ghost ring: seq<Tcb>, ghost prios: seq<int>, ghost k: nat)
      requires NoDuplicates(ring) && DeltaEncoded(ring, prios) && 1 <= k < |ring| && t == ring[k]
      requires head == ring[0] && t.qNext == ring[if k + 1 < |ring| then k + 1 else 0]
      modifies ring`qPrio
      ensures DeltaEncoded(Cut(ring, k), Cut(prios, k))
    {
      assert t.qPrio == prios[k - 1] - prios[k];
      assert k + 1 < |ring| ==> ring[k + 1].qPrio == prios[k] - prios[k + 1];
      if t.qNext != head {
        t.qNext.qPrio := t.qNext.qPrio + t.qPrio;
      }
      t.qPrio := 0;
      CutKeepsDeltas(ring, prios, k);
    }

    /** Unlink a node behind the head; its successor takes over its drop. */
    method UnlinkInner(t: Tcb, ghost k: nat)
      requires Valid() && 1 <= k < |ring| && ring[k] == t
      modifies this, ring
      ensures Valid()
      ensures ring == Cut(old(ring), k) && prios == Cut(old(prios), k)
    {
      LinkAround(t, ring, k);
      PassDrop(t, head, ring, prios, k);
      num := num - 1;
      ring, prios := Cut(ring, k), Cut(prios, k);
    }

    method DelMax() returns (t: Tcb?)
      requires Valid()
      modifies this, ring
      ensures Valid()
      ensures t == (if old(ring) == [] then null else old(ring[0]))
      ensures Contents() == if t == null then [] else old(Contents())[1..]
      ensures forall x :: x in ring <==> x in old(ring) && x != t
    {
      t := head;
      if t == null {
      } else if t.qNext == t {
        assert |ring| == 1;
        UnlinkOnly();
      } else {
        UnlinkHead();
        CutMembers(old(ring), 0);
      }
    }

    /** Unlink `t`, the `k`-th node. */
    method Unlink(t: Tcb, ghost k: nat)
      requires Valid() && k < |ring| && ring[k] == t
      modifies this, ring
      ensures Valid()
      ensures ring == Cut(old(ring), k) && prios == Cut(old(prios), k)
    {
      if head == t {
        assert k == 0;
        if t.qNext == t {
          assert |ring| == 1;
          UnlinkOnly();
        } else {
          UnlinkHead();
        }
      } else {
        UnlinkInner(t, k);
      }
    }

    method Delete(t: Tcb)
      requires Valid() && (ring != [] ==> t in ring)
      modifies this, ring
      ensures Valid()
      ensures ring == Remove(old(ring), t) && forall x :: x in ring <==> x in old(ring) && x != t
      ensures Contents() == Without(old(Contents()), t)
    {
      if head == null {
        return;
      }
      ghost var k :| 0 <= k < |ring| && ring[k] == t;
      RingSorted(ring, prios);
      CutIsWithout(ring, prios, k);
      CutMembers(ring, k);
      RemoveAt(ring, t, k);
      Unlink(t, k);
    }

    method Favorite(t: Tcb) returns (ok: bool)
      requires Valid() && (ring != [] ==> t in ring)
      modifies this, ring
      ensures Valid()
      ensures ok == (old(ring) != [])
      ensures Contents() == PriorityOrder.Favorite(old(Contents()), t)
      ensures forall x :: x in ring <==> x in old(ring)
    {
      if head == null || num == 0 {
        return false;
      }
      if num == 1 {
        return true;
      }
      Delete(t);
      var prio := FavoritePrio();
      assert forall i :: 0 <= i < |ring| ==> ring[i] in ring;
      Insert(prio, t);
      ok := true;
    }

    /** pth_pqueue_favorite_prio */
    method FavoritePrio() returns (prio: int)
      requires Valid()
      ensures prio == PriorityOrder.FavoritePrio(Contents())
    {
      prio := if head != null then head.qPrio + 1 else PRIO_MAX;
    }

    method Increase()
      requires Valid()
      modifies this, ring
      ensures Valid()
      ensures ring == old(ring) && Contents() == Raise(old(Contents()))
    {
      if head == null {
        return;
      }
      head.qPrio := head.qPrio + 1;
      ghost var ps := prios;
      prios := seq(|ps|, i requires 0 <= i < |ps| => ps[i] + 1);
    }

    method Tail() returns (t: Tcb?)
      requires Valid()
      ensures t == if ring == [] then null else ring[|ring| - 1]
    {
      if head == null {
        return null;
      }
      t := head.qPrev;
    }

    method Walk(t: Tcb?, direction: Direction, ghost i: nat) returns (tn: Tcb?)
      requires Valid() && (t != null ==> i < |ring| && ring[i] == t)
      ensures t == null ==> tn == null
      ensures t != null && direction == WalkNext ==> tn == if i + 1 < |ring| then ring[i + 1] else null
      ensures t != null && direction == WalkPrev ==> tn == if i > 0 then ring[i - 1] else null
    {
      if t == null {
        return null;
      }
      tn := null;
      if direction == WalkPrev {
        if t != head {
          tn := t.qPrev;
        }
      } else {
        tn := t.qNext;
        if tn == head {
          tn := null;
        }
      }
    }

    method Contains(t: Tcb) returns (found: bool)
      requires Valid()
      ensures found <==> t in ring
    {
      found := false;
      var tc := head;
      ghost var i := 0;
      while tc != null
        invariant 0 <= i <= |ring|
        invariant tc == if i < |ring| then ring[i] else null
        invariant t !in ring[..i]
        decreases |ring| - i
      {
        if tc == t {
          return true;
        }
        tc := Walk(tc, WalkNext, i);
        i := i + 1;
      }
    }
  }

  // Splicing and cutting the ring is inserting and deleting in the queue

  lemma SpliceIsInsert(ring: seq<Tcb>, prios: seq<int>, prio: int, t: Tcb, k: nat)
    requires |ring| == |prios| && k <= |ring|
    requires Sorted(Zip(ring, prios))
    requires k > 0 ==> prios[k - 1] >= prio
    requires k < |ring| ==> prios[k] < prio
    ensures Zip(Splice(ring, k, t), Splice(prios, k, prio)) == Insert(Zip(ring, prios), prio, t)
  {
    InsertAt(Zip(ring, prios), prio, t, k);
  }

  lemma CutIsWithout(ring: seq<Tcb>, prios: seq<int>, k: nat)
    requires |ring| == |prios| && k < |ring|
    requires Distinct(Zip(ring, prios))
    ensures Zip(Cut(ring, k), Cut(prios, k)) == Without(Zip(ring, prios), ring[k])
  {
    WithoutAt(Zip(ring, prios), ring[k], k);
  }
}
