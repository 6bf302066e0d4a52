/**
 The wait queues of the synchronization primitives (pth_sync.c): a singly linked FIFO threaded
 through the one `wq_next` link of each parked thread's control block.
 */
module WaitQueue {
  import opened Basics

  /** The wait-queue part of a control block; `id` is its address. */
  class Waiter {
    const id: Tid
    var wqNext: Waiter?

    constructor (id: Tid)
      ensures this.id == id && wqNext == null
    {
      this.id := id;
      wqNext := null;
    }
  }

  function Ids(s: seq<Waiter>): (r: seq<Tid>)
    ensures |r| == |s| && forall i {:trigger r[i]} :: 0 <= i < |s| ==> r[i] == s[i].id
  {
    seq(|s|, i requires 0 <= i < |s| => s[i].id)
  }

  /** No other thread of the queue has the address of `t`. */
  ghost predicate Known(s: seq<Waiter>, t: Waiter) {
    forall i :: 0 <= i < |s| && s[i].id == t.id ==> s[i] == t
  }

  lemma KnownTail(s: seq<Waiter>, t: Waiter)
    requires s != [] && Known(s, t)
    ensures Known(s[1..], t) && Ids(s) == [s[0].id] + Ids(s[1..]) && Ids(s)[1..] == Ids(s[1..])
  {
  }

  lemma {:induction false} IdsRemove(s: seq<Waiter>, t: Waiter)
    requires Known(s, t)
    ensures Ids(Remove(s, t)) == Remove(Ids(s), t.id)
  {
    if s != [] {
      KnownTail(s, t);
      if s[0] != t {
        IdsRemove(s[1..], t);
        assert Ids([s[0]] + Remove(s[1..], t)) == [s[0].id] + Ids(Remove(s[1..], t));
      }
    }
  }

  lemma IdsHas(s: seq<Waiter>, t: Waiter)
    requires Known(s, t)
    ensures t in s <==> t.id in Ids(s)
  {
    if t in s {
      var i :| 0 <= i < |s| && s[i] == t;
      assert Ids(s)[i] == t.id;
    }
  }

  lemma IdsAppend(s: seq<Waiter>, t: Waiter)
    ensures Ids(s + [t]) == Ids(s) + [t.id]
  {
  }

  class Queue {
    var head: Waiter?
    var tail: Waiter?
    ghost var items: seq<Waiter>

    ghost predicate Valid()
      reads this, items
    {
      var n := |items|;
      && NoDup(items)
      && head == (if n == 0 then null else items[0])
      && tail == (if n == 0 then null else items[n - 1])
      && (forall i {:trigger items[i].wqNext} :: 0 <= i < n - 1 ==> items[i].wqNext == items[i + 1])
      && (n > 0 ==> items[n - 1].wqNext == null)
    }

    constructor ()
      ensures Valid() && items == []
    {
      head, tail := null, null;
      items := [];
    }

    /** The code of pth_waitq_append: what it does to the links, whatever they are */
    method Link(t: Waiter)
      requires t != tail
      modifies `head, `tail, {tail}, t
      ensures head == (if old(tail) == null then t else old(head)) && tail == t
      ensures t.wqNext == null && (old(tail) != null ==> old(tail).wqNext == t)
    {
      t.wqNext := null;
      if tail != null {
        tail.wqNext := t;
      } else {
        head := t;
      }
      tail := t;
    }

    /** The code of pth_waitq_shift: what it does to the links, whatever they are */
    method Unlink() returns (t: Waiter?)
      modifies `head, `tail, {head}
      ensures t == old(head)
      ensures t == null ==> head == null && tail == old(tail)
      ensures t != null ==> head == old(t.wqNext) && t.wqNext == null
      ensures t != null ==> tail == if head == null then null else old(tail)
    {
      t := head;
      if t != null {
        head := t.wqNext;
        if head == null {
          tail := null;
        }
        t.wqNext := null;
      }
    }

    method Append(t: Waiter)
      requires Valid() && t !in items
      modifies this, items, t
      ensures Valid() && items == old(items) + [t]
      ensures t.wqNext == null
    {
      Link(t);
      items := items + [t];
    }

    method Shift() returns (t: Waiter?)
      requires Valid()
      modifies this, items
      ensures Valid()
      ensures old(items) == [] ==> t == null && items == []
      ensures old(items) != [] ==> t == old(items)[0] && items == old(items)[1..] && t.wqNext == null
    {
      t := Unlink();
      if t != null {
        items := items[1..];
      }
    }

    method Delete(t: Waiter) returns (found: bool)
      requires Valid()
      modifies this, items
      ensures Valid()
      ensures found <==> t in old(items)
      ensures items == Remove(old(items), t)
      ensures found ==> t.wqNext == null
    {
      var p: Waiter? := null;
      var c := head;
      ghost var k := 0;
      while c != null
        invariant 0 <= k <= |items| && t !in items[..k]
        invariant c == if k < |items| then items[k] else null
        invariant p == if k == 0 then null else items[k - 1]
        decreases |items| - k
      {
        if c == t {
          Bypass(p, c, k);
          return true;
        }
        p := c;
        c := c.wqNext;
        k := k + 1;
      }
      return false;
    }

    /** Take `c`, the `k`-th waiter, out of the chain; `p` is the one before it, if any. */
    method Bypass(p: Waiter?, c: Waiter, ghost k: nat)
      requires Valid() && k < |items| && c == items[k]
      requires p == if k == 0 then null else items[k - 1]
      modifies this, items
      ensures Valid() && items == Remove(old(items), c) && c.wqNext == null
    {
      RemoveAt(items, c, k);
      if p != null {
        p.wqNext := c.wqNext;
      } else {
        head := c.wqNext;
      }
      if tail == c {
        tail := p;
      }
      c.wqNext := null;
      items := Cut(items, k);
    }
  }

  /** Whoever is in the queue now was in it before, or is `t`. */
  ghost predicate Comes(now: seq<Waiter>, before: seq<Waiter>, t: Waiter) {
    forall i :: 0 <= i < |now| ==> now[i] in before || now[i] == t
  }

  // The same, as the addresses of the waiters, for the primitives that own a queue

  method LineUp(q: Queue, t: Waiter)
    requires q.Valid() && t !in q.items
    modifies q, q.items, t
    ensures q.Valid() && q.items == old(q.items) + [t] && Ids(q.items) == old(Ids(q.items)) + [t.id]
  {
    IdsAppend(q.items, t);
    q.Append(t);
  }

  method DropOut(q: Queue, t: Waiter) returns (found: bool)
    requires q.Valid() && Known(q.items, t)
    modifies q, q.items
    ensures q.Valid() && t !in q.items && (forall i :: 0 <= i < |q.items| ==> q.items[i] in old(q.items))
    ensures found <==> t.id in old(Ids(q.items))
    ensures Ids(q.items) == Remove(old(Ids(q.items)), t.id)
  {
    IdsRemove(q.items, t);
    IdsHas(q.items, t);
    RemoveKeepsNoDup(q.items, t);
    found := q.Delete(t);
  }

  method CallFirst(q: Queue) returns (t: Waiter?)
    requires q.Valid()
    modifies q, q.items
    ensures q.Valid() && (forall i :: 0 <= i < |q.items| ==> q.items[i] in old(q.items))
    ensures var ids := old(Ids(q.items));
            if ids == [] then t == null && Ids(q.items) == [] else t != null && t.id == ids[0] && Ids(q.items) == ids[1..]
  {
    ghost var items := q.items;
    t := q.Shift();
    assert items != [] ==> Ids(items)[1..] == Ids(items[1..]);
  }
}
