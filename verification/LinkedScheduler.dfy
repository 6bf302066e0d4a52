/**
 The scheduler with the rings it really has: five delta-encoded queues threaded through one pair of
 links per control block. A block can be in one ring only, so every operation must take it off one
 queue before it puts it on another; that keeps the rings apart, and makes each operation the function
 of `SchedulerOps` that it is proved against.
 */
module LinkedScheduler {
  import opened Basics
  import opened PriorityOrder
  import opened SchedulerOps
  import PQ = PriorityQueue

  type Node = PQ.Tcb

  // Queues of control blocks and queues of their addresses

  function Ids(s: seq<Entry<Node>>): (r: seq<Entry<Tid>>)
    ensures |r| == |s|
    ensures forall i {:trigger r[i]} :: 0 <= i < |s| ==> r[i] == Entry(s[i].thread.id, s[i].prio)
  {
    seq(|s|, i requires 0 <= i < |s| => Entry(s[i].thread.id, s[i].prio))
  }

  lemma {:induction false} IdsRank(s: seq<Entry<Node>>, prio: int)
    ensures Rank(Ids(s), prio) == Rank(s, prio)
  {
    if s != [] {
      assert Ids(s)[1..] == Ids(s[1..]);
      IdsRank(s[1..], prio);
    }
  }

  lemma IdsInsert(s: seq<Entry<Node>>, prio: int, t: Node)
    ensures Ids(Insert(s, prio, t)) == Insert(Ids(s), prio, t.id)
  {
    IdsRank(s, prio);
  }

  /** No other block of the queue has the address of `t`. */
  ghost predicate Known(s: seq<Entry<Node>>, t: Node) {
    forall i :: 0 <= i < |s| && s[i].thread.id == t.id ==> s[i].thread == t
  }

  lemma {:induction false} IdsIndex(s: seq<Entry<Node>>, t: Node)
    requires Known(s, t)
    ensures IndexOf(Ids(s), t.id) == IndexOf(s, t)
  {
    if s != [] && s[0].thread != t {
      assert s[0].thread.id != t.id;
      assert Ids(s)[1..] == Ids(s[1..]);
      assert forall i :: 0 <= i < |s| - 1 ==> s[1..][i] == s[i + 1];
      IdsIndex(s[1..], t);
    }
  }

  lemma IdsWithout(s: seq<Entry<Node>>, t: Node)
    requires Known(s, t)
    ensures Ids(Without(s, t)) == Without(Ids(s), t.id)
  {
    IdsIndex(s, t);
  }

  lemma IdsContains(s: seq<Entry<Node>>, t: Node)
    requires Known(s, t)
    ensures Contains(Ids(s), t.id) <==> Contains(s, t)
  {
    if Contains(s, t) {
      var i :| 0 <= i < |s| && s[i].thread == t;
      assert Ids(s)[i].thread == t.id;
    }
  }

  lemma IdsFavorite(s: seq<Entry<Node>>, t: Node)
    requires Known(s, t)
    ensures Ids(PriorityOrder.Favorite(s, t)) == PriorityOrder.Favorite(Ids(s), t.id)
  {
    IdsWithout(s, t);
    var r := Without(s, t);
    IdsInsert(r, FavoritePrio(r), t);
  }

  lemma IdsRaise(s: seq<Entry<Node>>)
    ensures Ids(Raise(s)) == Raise(Ids(s))
  {
  }

  // The five queues

  const NEWQ := 0
  const READYQ := 1
  const WAITQ := 2
  const SUSPQ := 3
  const DEADQ := 4

  /** Which queue each known block is in, or -1 for a block that is in none */
  type Places = map<Node, int>

  /** Every block of the ring is recorded there. */
  ghost predicate Placed(ring: seq<Node>, k: int, places: Places) {
    forall x :: x in ring ==> x in places && places[x] == k
  }

  /** No two known blocks have the same address. */
  ghost predicate Addressed(places: Places) {
    forall x, y :: x in places && y in places && x.id == y.id ==> x == y
  }

  lemma PlacedKnown(q: PQ.PQueue, k: int, places: Places, t: Node)
    requires |q.ring| == |q.prios| && Placed(q.ring, k, places) && Addressed(places) && t in places
    ensures Known(q.Contents(), t) && (Contains(Ids(q.Contents()), t.id) <==> t in q.ring)
  {
    var s := q.Contents();
    forall i | 0 <= i < |s| && s[i].thread.id == t.id ensures s[i].thread == t {
      assert s[i].thread == q.ring[i] && q.ring[i] in q.ring;
    }
    if t in q.ring {
      var i :| 0 <= i < |q.ring| && q.ring[i] == t;
      assert s[i].thread == t;
    }
    IdsContains(s, t);
  }

  lemma PlacedStill(ring: seq<Node>, k: int, before: Places, after: Places, t: PQ.Tcb?)
    requires Placed(ring, k, before) && (t != null ==> t !in ring)
    requires forall x :: x in before && x != t ==> x in after && after[x] == before[x]
    ensures Placed(ring, k, after)
  {
  }

  /** A ring survives whatever leaves it and its blocks alone. */
  twostate lemma Untouched(q: PQ.PQueue)
    requires old(q.Valid()) && unchanged(q) && unchanged(q.ring)
    ensures q.Valid()
  {
  }

  lemma Elsewhere(a: seq<Node>, i: int, b: seq<Node>, k: int, places: Places)
    requires Placed(a, i, places) && Placed(b, k, places) && i != k
    ensures forall n :: 0 <= n < |a| ==> a[n] !in b
  {
    forall n | 0 <= n < |a| ensures a[n] !in b {
      assert a[n] in a;
    }
  }

  /** The queues of a scheduler: one pair of links per block, so a block is in one ring at most. */
  class Rings {
    const nq: PQ.PQueue
    const rq: PQ.PQueue
    const wq: PQ.PQueue
    const sq: PQ.PQueue
    const dq: PQ.PQueue
    ghost var places: Places
    ghost var queues: seq<seq<Entry<Tid>>>  // the addresses and priorities in each ring
    ghost var repr: set<object>

    function Q(k: int): PQ.PQueue {
      if k == NEWQ then nq else if k == READYQ then rq else if k == WAITQ then wq else if k == SUSPQ then sq else dq
    }

    ghost predicate RingOk(k: int)
      reads this, repr
    {
      && Q(k) in repr && (forall x :: x in Q(k).ring ==> x in repr)
      && Q(k).Valid() && Placed(Q(k).ring, k, places)
      && 0 <= k < |queues| && queues[k] == Ids(Q(k).Contents())
    }

    ghost predicate Valid()
      reads this, repr
    {
      && this !in repr && |queues| == 5 && Addressed(places) && (forall x :: x in places ==> x in repr)
      && (forall i :: 0 <= i < 5 ==> RingOk(i))
      && (forall i, j :: 0 <= i < j < 5 ==> Q(i) != Q(j))
    }

    /** A block that is in no ring */
    ghost predicate Loose(t: Node)
      reads this
    {
      t in places && places[t] == -1
    }

    constructor (n: PQ.PQueue, r: PQ.PQueue, w: PQ.PQueue, s: PQ.PQueue, d: PQ.PQueue)
      requires n.Valid() && r.Valid() && w.Valid() && s.Valid() && d.Valid()
      requires n.ring == r.ring == w.ring == s.ring == d.ring == []
      requires n != r && n != w && n != s && n != d && r != w && r != s && r != d && w != s && w != d && s != d
      ensures Valid() && queues == [[], [], [], [], []] && places == map[] && repr == {n, r, w, s, d}
    {
      nq, rq, wq, sq, dq := n, r, w, s, d;
      places, queues, repr := map[], [[], [], [], [], []], {n, r, w, s, d};
    }

    // One ring is worked on; the others survive, because they share no block with it

    method Detach(k: nat, t: Node)
      requires Valid() && k < 5 && RingOk(k) && t in Q(k).ring
      modifies Q(k), Q(k).ring
      ensures forall i :: 0 <= i < 5 && i != k ==> RingOk(i)
      ensures Q(k).Valid() && Q(k).Contents() == Without(old(Q(k).Contents()), t)
      ensures Q(k).ring == Remove(old(Q(k).ring), t) && t !in Q(k).ring && forall x :: x in Q(k).ring ==> x in old(Q(k).ring)
    {
      Q(k).Delete(t);
      forall i | 0 <= i < 5 && i != k ensures RingOk(i) {
        assert old(RingOk(i)) && unchanged(Q(i));
        Elsewhere(Q(i).ring, i, old(Q(k).ring), k, places);
        Untouched(Q(i));
      }
    }

    method Attach(k: nat, prio: int, t: Node)
      requires Valid() && k < 5 && RingOk(k) && Loose(t)
      modifies Q(k), Q(k).ring, t
      ensures forall i :: 0 <= i < 5 && i != k ==> RingOk(i)
      ensures Q(k).Valid() && Q(k).Contents() == Insert(old(Q(k).Contents()), prio, t)
      ensures forall x :: x in Q(k).ring ==> x in old(Q(k).ring) || x == t
    {
      Q(k).Insert(prio, t);
      forall i | 0 <= i < 5 && i != k ensures RingOk(i) {
        assert old(RingOk(i)) && unchanged(Q(i));
        Elsewhere(Q(i).ring, i, old(Q(k).ring), k, places);
        assert forall n :: 0 <= n < |Q(i).ring| ==> Q(i).ring[n] in Q(i).ring && Q(i).ring[n] != t;
        Untouched(Q(i));
      }
    }

    method Pop(k: nat) returns (t: PQ.Tcb?)
      requires Valid() && k < 5 && RingOk(k)
      modifies Q(k), Q(k).ring
      ensures forall i :: 0 <= i < 5 && i != k ==> RingOk(i)
      ensures t == (if old(Q(k).ring) == [] then null else old(Q(k).ring[0]))
      ensures Q(k).Valid() && Q(k).Contents() == if t == null then [] else old(Q(k).Contents())[1..]
      ensures forall x :: x in Q(k).ring ==> x in old(Q(k).ring) && x != t
    {
      t := Q(k).DelMax();
      forall i | 0 <= i < 5 && i != k ensures RingOk(i) {
        assert old(RingOk(i)) && unchanged(Q(i));
        Elsewhere(Q(i).ring, i, old(Q(k).ring), k, places);
        Untouched(Q(i));
      }
    }

    method Favour(k: nat, t: Node)
      requires Valid() && k < 5 && RingOk(k) && t in Q(k).ring
      modifies Q(k), Q(k).ring
      ensures forall i :: 0 <= i < 5 && i != k ==> RingOk(i)
      ensures Q(k).Valid() && Q(k).Contents() == PriorityOrder.Favorite(old(Q(k).Contents()), t)
      ensures forall x :: x in Q(k).ring ==> x in old(Q(k).ring)
    {
      var ok := Q(k).Favorite(t);
      forall i | 0 <= i < 5 && i != k ensures RingOk(i) {
        assert old(RingOk(i)) && unchanged(Q(i));
        Elsewhere(Q(i).ring, i, old(Q(k).ring), k, places);
        Untouched(Q(i));
      }
    }

    method Age(k: nat)
      requires Valid() && k < 5 && RingOk(k)
      modifies Q(k), Q(k).ring
      ensures forall i :: 0 <= i < 5 && i != k ==> RingOk(i)
      ensures Q(k).Valid() && Q(k).Contents() == Raise(old(Q(k).Contents())) && Q(k).ring == old(Q(k).ring)
    {
      Q(k).Increase();
      forall i | 0 <= i < 5 && i != k ensures RingOk(i) {
        assert old(RingOk(i)) && unchanged(Q(i));
        Elsewhere(Q(i).ring, i, old(Q(k).ring), k, places);
        Untouched(Q(i));
      }
    }

    // What that does to the queues

    /** The record of ring `k` is brought up to date; the other rings do not care. */
    ghost method Record(k: nat, t: PQ.Tcb?, place: int)
      requires k < 5 && |queues| == 5 && this !in repr && Addressed(places) && (forall x :: x in places ==> x in repr)
      requires forall i :: 0 <= i < 5 && i != k ==> RingOk(i) && (t != null ==> t !in Q(i).ring)
      requires forall i, j :: 0 <= i < j < 5 ==> Q(i) != Q(j)
      requires Q(k) in repr && Q(k).Valid() && (t != null ==> t in places)
      requires forall x :: x in Q(k).ring ==> x in places && if x == t then place == k else places[x] == k
      modifies this`places, this`queues
      ensures Valid() && places == (if t == null then old(places) else old(places)[t := place])
      ensures queues == old(queues)[k := Ids(Q(k).Contents())]
    {
      if t != null {
        places := places[t := place];
      }
      queues := queues[k := Ids(Q(k).Contents())];
      forall i | 0 <= i < 5 ensures RingOk(i) {
        if i != k {
          assert old(RingOk(i));
          PlacedStill(Q(i).ring, i, old(places), places, t);
        }
      }
    }

    lemma NotElsewhere(t: Node, k: int)
      requires Valid() && t in places && places[t] == k
      ensures forall i :: 0 <= i < 5 && i != k ==> t !in Q(i).ring
    {
      forall i | 0 <= i < 5 && i != k ensures t !in Q(i).ring {
        assert RingOk(i);
      }
    }

    lemma Sits(k: nat, t: Node)
      requires Valid() && k < 5 && t in places && Contains(queues[k], t.id)
      ensures places[t] == k
    {
      assert RingOk(k);
      PlacedKnown(Q(k), k, places, t);
    }

    /** Take a block off the ring it is in. */
    method Take(k: nat, t: Node)
      requires Valid() && k < 5 && t in places && places[t] == k && Contains(queues[k], t.id)
      modifies this, repr
      ensures Valid() && repr == old(repr) && places == old(places)[t := -1]
      ensures queues == old(queues)[k := Without(old(queues)[k], t.id)]
    {
      assert RingOk(k);
      NotElsewhere(t, k);
      PlacedKnown(Q(k), k, places, t);
      IdsWithout(Q(k).Contents(), t);
      Detach(k, t);
      Record(k, t, -1);
    }

    /** Put a block that is in no ring onto one. */
    method Put(k: nat, prio: int, t: Node)
      requires Valid() && k < 5 && Loose(t)
      modifies this, repr
      ensures Valid() && repr == old(repr) && places == old(places)[t := k]
      ensures queues == old(queues)[k := Insert(old(queues)[k], prio, t.id)]
    {
      assert RingOk(k);
      NotElsewhere(t, -1);
      IdsInsert(Q(k).Contents(), prio, t);
      Attach(k, prio, t);
      Record(k, t, k);
    }

    /** Take the first block off a ring, if there is one. */
    method First(k: nat) returns (t: PQ.Tcb?)
      requires Valid() && k < 5
      modifies this, repr
      ensures Valid() && repr == old(repr) && (t == null <==> old(queues)[k] == [])
      ensures t == null ==> places == old(places) && queues == old(queues)
      ensures t != null ==>
                && t in old(places) && t.id == old(queues)[k][0].thread
                && places == old(places)[t := -1] && queues == old(queues)[k := old(queues)[k][1..]]
    {
      assert RingOk(k);
      ghost var s := Q(k).Contents();
      t := Pop(k);
      if t != null {
        assert t == s[0].thread && t in old(Q(k).ring);
        assert Ids(s)[1..] == Ids(s[1..]);
        forall i | 0 <= i < 5 && i != k ensures t !in Q(i).ring {
          assert RingOk(i);
        }
      }
      Record(k, t, -1);
    }

    /** Make a block the first of its ring. */
    method Prefer(k: nat, t: Node)
      requires Valid() && k < 5 && t in places && Contains(queues[k], t.id)
      modifies this, repr
      ensures Valid() && repr == old(repr) && places == old(places)
      ensures queues == old(queues)[k := PriorityOrder.Favorite(old(queues)[k], t.id)]
    {
      assert RingOk(k);
      PlacedKnown(Q(k), k, places, t);
      IdsFavorite(Q(k).Contents(), t);
      Favour(k, t);
      Record(k, null, -1);
    }

    /** Raise a whole ring by one. */
    method RaiseAll(k: nat)
      requires Valid() && k < 5
      modifies this, repr
      ensures Valid() && repr == old(repr) && places == old(places)
      ensures queues == old(queues)[k := Raise(old(queues)[k])]
    {
      assert RingOk(k);
      IdsRaise(Q(k).Contents());
      Age(k);
      Record(k, null, -1);
    }

    /** pth_pqueue_contains on one of the rings */
    method Find(k: nat, t: Node) returns (found: bool)
      requires Valid() && k < 5 && t in places
      ensures found <==> Contains(queues[k], t.id)
      ensures found ==> places[t] == k
    {
      assert RingOk(k);
      PlacedKnown(Q(k), k, places, t);
      found := Q(k).Contains(t);
    }

    method Last(k: nat) returns (t: PQ.Tcb?)
      requires Valid() && k < 5
      ensures t == null <==> queues[k] == []
      ensures t != null ==> t in places && places[t] == k && t.id == queues[k][|queues[k]| - 1].thread
    {
      assert RingOk(k);
      t := Q(k).Tail();
      assert t != null ==> t in Q(k).ring;
    }

    method TopPrio(k: nat) returns (prio: int)
      requires Valid() && k < 5
      ensures prio == FavoritePrio(queues[k])
    {
      assert RingOk(k);
      prio := Q(k).FavoritePrio();
    }

    /** The first block of a ring */
    method Head(k: nat) returns (t: PQ.Tcb?)
      requires Valid() && k < 5
      ensures t == null <==> queues[k] == []
      ensures t != null ==> t in places && places[t] == k && t.id == queues[k][0].thread
    {
      assert RingOk(k);
      t := Q(k).head;
      assert t != null ==> t in Q(k).ring;
    }

    /** pth_pqueue_walk from the `i`-th block of a ring to the next */
    method After(k: nat, t: Node, ghost i: nat) returns (tn: PQ.Tcb?)
      requires Valid() && k < 5 && t in places && i < |queues[k]| && queues[k][i].thread == t.id
      ensures tn == null <==> i + 1 == |queues[k]|
      ensures tn != null ==> tn in places && places[tn] == k && tn.id == queues[k][i + 1].thread
    {
      assert RingOk(k);
      assert Q(k).ring[i] == t by {
        assert Q(k).ring[i] in Q(k).ring;
      }
      tn := Q(k).Walk(t, PQ.WalkNext, i);
      assert tn != null ==> tn in Q(k).ring;
    }

    /** A block that was never seen before, at an address of its own */
    ghost method Learn(t: Node)
      requires Valid() && (forall x :: x in places ==> x.id != t.id)
      modifies this
      ensures Valid() && places == old(places)[t := -1] && queues == old(queues) && repr == old(repr) + {t}
    {
      places := places[t := -1];
      repr := repr + {t};
      forall i | 0 <= i < 5 ensures RingOk(i) {
        assert old(RingOk(i)) && t !in Q(i).ring;
      }
    }
  }

  lemma PromoteShrinks(g: Gs, i: nat)
    requires Distinct(g.wq) && i < |g.wq|
    ensures var t, q := g.wq[i].thread, PromoteOne(g, g.wq[i].thread).wq;
            && Contains(g.wq, t) && Distinct(q) && |q| == |g.wq| - 1
            && (forall j :: i <= j < |q| ==> q[j] == g.wq[j + 1])
  {
    WithoutAt(g.wq, g.wq[i].thread, i);
  }

  lemma KeepsSuspended(g: Gs, st: TState, q: seq<Entry<Tid>>)
    ensures SetQueue(g, st, q).sq == g.sq
  {
  }

  lemma LastIsIn(q: seq<Entry<Tid>>)
    requires q != []
    ensures Contains(q, q[|q| - 1].thread)
  {
  }

  /** `MoveAllNew` leads from `g` to `goal`; put so that the loop that computes it need not unfold it. */
  ghost predicate Heads(g: Gs, favour: bool, goal: Gs) {
    forall f :: f == favour ==> MoveAllNew(g, f) == goal
  }

  lemma MoveAllStep(g: Gs, t: Tid, favour: bool, goal: Gs)
    requires g.nq != [] && t == g.nq[|g.nq| - 1].thread && Heads(g, favour, goal)
    ensures |MoveOne(g, t, favour).nq| < |g.nq| && Heads(MoveOne(g, t, favour), favour, goal)
  {
    assert IndexOf(g.nq, g.nq[|g.nq| - 1].thread) < |g.nq|;
    assert MoveAllNew(g, favour) == goal;
  }

  lemma MoveAllDone(g: Gs, favour: bool, goal: Gs)
    requires g.nq == [] && Heads(g, favour, goal)
    ensures g == goal
  {
    assert MoveAllNew(g, favour) == goal;
  }

  /** The index of the queue a thread in state `st` belongs to */
  function Slot(st: TState): int {
    match st case NEW => NEWQ case READY => READYQ case WAITING => WAITQ case DEAD => -1
  }

  class Scheduler {
    const rings: Rings
    var current: PQ.Tcb?
    var tcb: Tid -> Tcb
    var frees: seq<Tid>

    /** The rings are in order, and the running thread is in none of them. */
    ghost predicate Valid()
      reads this, rings, rings.repr
    {
      rings.Valid() && this !in rings.repr && (current != null ==> rings.Loose(current))
    }

    ghost function View(): Gs
      requires |rings.queues| == 5
      reads this, rings
    {
      var q := rings.queues;
      Gs(q[NEWQ], q[READYQ], q[WAITQ], q[SUSPQ], q[DEADQ], if current == null then None else Some(current.id), tcb, frees)
    }

    constructor (rings: Rings, memory: Tid -> Tcb)
      requires rings.Valid() && rings.queues == [[], [], [], [], []]
      ensures this.rings == rings && Valid() && View() == Gs([], [], [], [], [], None, memory, [])
    {
      this.rings := rings;
      current, tcb, frees := null, memory, [];
    }

    method SetStateOf(t: Node, st: TState)
      requires Valid()
      modifies this`tcb
      ensures Valid() && View() == SetState(old(View()), t.id, st)
    {
      tcb := Set(tcb, t.id, tcb(t.id).(state := st));
    }

    /** pth_spawn, and a SPAWN message applied by the drain */
    method Adopt(t: Node, block: Tcb)
      requires Valid() && rings.Loose(t) && t != current
      modifies this`tcb, rings, rings.repr
      ensures Valid() && View() == AdoptThread(old(View()), t.id, block)
      ensures rings.repr == old(rings.repr) && rings.places == old(rings.places)[t := NEWQ]
      ensures rings.places.Keys == old(rings.places.Keys)
    {
      tcb := Set(tcb, t.id, block.(state := NEW));
      rings.Put(NEWQ, block.prio, t);
    }

    method MoveNewThread(t: Node, favour: bool)
      requires Valid() && current == null && t in rings.places && rings.places[t] == NEWQ && Contains(View().nq, t.id)
      modifies this`tcb, rings, rings.repr
      ensures Valid() && View() == MoveOne(old(View()), t.id, favour)
      ensures rings.repr == old(rings.repr) && rings.places.Keys == old(rings.places.Keys)
    {
      rings.Take(NEWQ, t);
      SetStateOf(t, READY);
      if favour {
        var prio := rings.TopPrio(READYQ);
        rings.Put(READYQ, prio, t);
      } else {
        rings.Put(READYQ, PRIO_STD, t);
      }
    }

    ghost predicate IsLastNew(t: Node)
      reads rings
    {
      && |rings.queues| == 5 && rings.queues[NEWQ] != [] && t in rings.places && rings.places[t] == NEWQ
      && t.id == rings.queues[NEWQ][|rings.queues[NEWQ]| - 1].thread
    }

    /** One turn of the loop: move the last new thread, and look for the next. */
    method MoveLast(t: Node, favour: bool, ghost g: Gs) returns (tn: PQ.Tcb?, ghost g': Gs)
      requires Valid() && current == null && IsLastNew(t) && View() == g
      modifies this`tcb, rings, rings.repr
      ensures Valid() && View() == g' == MoveOne(g, t.id, favour) && (if tn == null then g'.nq == [] else IsLastNew(tn))
      ensures rings.repr == old(rings.repr) && rings.places.Keys == old(rings.places.Keys)
    {
      LastIsIn(g.nq);
      MoveNewThread(t, favour);
      tn := rings.Last(NEWQ);
      g' := View();
    }

    /** Top of the scheduler loop: empty the new queue into the ready queue, from its tail. */
    method MoveNewThreads(favour: bool)
      requires Valid() && current == null
      modifies this`tcb, rings, rings.repr
      ensures Valid() && View() == MoveAllNew(old(View()), favour)
      ensures rings.repr == old(rings.repr) && rings.places.Keys == old(rings.places.Keys)
    {
      ghost var g, goal := View(), MoveAllNew(View(), favour);
      var t := rings.Last(NEWQ);
      while t != null
        invariant Valid() && current == null && (if t == null then g.nq == [] else IsLastNew(t))
        invariant rings.repr == old(rings.repr) && rings.places.Keys == old(rings.places.Keys)
        invariant View() == g && Heads(g, favour, goal)
        decreases |g.nq|
      {
        MoveAllStep(g, t.id, favour, goal);
        t, g := MoveLast(t, favour, g);
      }
      MoveAllDone(g, favour, goal);
    }

    /** Take the next thread to run off the ready queue. */
    method DispatchOne() returns (any: bool)
      requires Valid() && current == null
      modifies this`current, rings, rings.repr
      ensures Valid() && any == (old(View()).rq != [])
      ensures View() == if any then DispatchNext(old(View())) else old(View())
      ensures rings.repr == old(rings.repr) && rings.places.Keys == old(rings.places.Keys)
    {
      current := rings.First(READYQ);
      any := current != null;
    }

    /** Bottom of the scheduler loop: settle the previous thread and age the ready queue. */
    method SettleCurrent(how: Outcome)
      requires Valid() && current != null
      modifies this, rings, rings.repr
      ensures Valid() && View() == Settle(old(View()), how)
      ensures rings.repr == old(rings.repr) && rings.places.Keys == old(rings.places.Keys)
    {
      var t := current;
      if how == Exited {
        SetStateOf(t, DEAD);
        current := null;
        if !tcb(t.id).joinable {
          frees := frees + [t.id];
        } else {
          rings.Put(DEADQ, PRIO_STD, t);
        }
      }
      if how == Waits {
        SetStateOf(t, WAITING);
        current := null;
        rings.Put(WAITQ, tcb(t.id).prio, t);
      }
      rings.RaiseAll(READYQ);
      if current != null {
        current := null;
        rings.Put(READYQ, tcb(t.id).prio, t);
      }
    }

    method PromoteThread(t: Node)
      requires Valid() && current == null && t in rings.places && rings.places[t] == WAITQ && Contains(View().wq, t.id)
      modifies this`tcb, rings, rings.repr
      ensures Valid() && View() == PromoteOne(old(View()), t.id)
      ensures rings.places == old(rings.places)[t := READYQ]
      ensures rings.repr == old(rings.repr) && rings.places.Keys == old(rings.places.Keys)
    {
      rings.Take(WAITQ, t);
      SetStateOf(t, READY);
      rings.Put(READYQ, tcb(t.id).prio + 1, t);
    }

    ghost predicate IsWaiting(t: Node, i: int)
      reads rings
    {
      && |rings.queues| == 5 && 0 <= i < |rings.queues[WAITQ]| && t in rings.places && rings.places[t] == WAITQ
      && t.id == rings.queues[WAITQ][i].thread
    }

    /** One turn of the loop below: the walk goes on before the thread is moved. */
    method PromoteNext(t: Node, occurred: Tid -> bool, ghost i: nat, ghost goal: Gs) returns (tn: PQ.Tcb?, ghost j: nat)
      requires Valid() && current == null && IsWaiting(t, i) && Distinct(View().wq)
      requires PromoteEach(View(), Threads(View().wq)[i..], occurred) == goal
      modifies this`tcb, rings, rings.repr
      ensures Valid() && Distinct(View().wq) && j <= |View().wq|
      ensures |View().wq| - j < |old(View().wq)| - i
      ensures PromoteEach(View(), Threads(View().wq)[j..], occurred) == goal
      ensures if tn == null then j == |View().wq| else IsWaiting(tn, j)
      ensures rings.repr == old(rings.repr) && rings.places.Keys == old(rings.places.Keys)
    {
      PromoteStep(View(), i, occurred);
      PromoteShrinks(View(), i);
      tn := rings.After(WAITQ, t, i);
      if occurred(t.id) || tcb(t.id).cancelReq {
        PromoteThread(t);
        j := i;
      } else {
        j := i + 1;
      }
    }

    /** Last loop of the event manager */
    method PromoteOccurred(occurred: Tid -> bool)
      requires Valid() && current == null && Distinct(View().wq)
      modifies this`tcb, rings, rings.repr
      ensures Valid() && View() == PromoteDue(old(View()), occurred)
      ensures rings.repr == old(rings.repr) && rings.places.Keys == old(rings.places.Keys)
    {
      var t := rings.Head(WAITQ);
      ghost var i, goal := 0, PromoteDue(View(), occurred);
      assert Threads(View().wq)[0..] == Threads(View().wq);
      while t != null
        invariant Valid() && current == null && Distinct(View().wq) && 0 <= i <= |View().wq|
        invariant rings.repr == old(rings.repr) && rings.places.Keys == old(rings.places.Keys)
        invariant if t == null then i == |View().wq| else IsWaiting(t, i)
        invariant PromoteEach(View(), Threads(View().wq)[i..], occurred) == goal
        decreases |View().wq| - i
      {
        t, i := PromoteNext(t, occurred, i, goal);
      }
    }

    /** pth_thread_exists: finds a thread exactly if the scheduler holds it in a queue, and not as the running one. */
    method Has(t: Node) returns (found: bool)
      requires Valid() && t in rings.places
      ensures found <==> TallyOf(View(), t.id).Queued() > 0
      ensures Sound(View()) ==> (found <==> Held(View(), t.id) == 1 && current != t)
    {
      QueuedCounts(View(), t.id);
      assert Sound(View()) ==> SoundAt(View(), t.id);
      found := rings.Find(NEWQ, t);
      if !found {
        found := rings.Find(READYQ, t);
      }
      if !found {
        found := rings.Find(WAITQ, t);
      }
      if !found {
        found := rings.Find(SUSPQ, t);
      }
      if !found {
        found := rings.Find(DEADQ, t);
      }
    }

    /** Take a thread off the queue its state names, if it is there. */
    method TakeLive(t: Node) returns (ok: bool)
      requires Valid() && t in rings.places
      modifies rings, rings.repr
      ensures Valid()
      ensures var g := old(View()); var q := LiveQueue(g, g.StateOf(t.id));
              && ok == Contains(q, t.id)
              && View() == if ok then SetQueue(g, g.StateOf(t.id), Without(q, t.id)) else g
      ensures ok ==> rings.Loose(t) && t != current
      ensures rings.repr == old(rings.repr) && rings.places.Keys == old(rings.places.Keys)
    {
      var k := Slot(tcb(t.id).state);
      if k == -1 {
        return false;
      }
      ok := rings.Find(k, t);
      if ok {
        rings.Take(k, t);
      }
    }

    /** pth_suspend_local */
    method SuspendLocal(t: Node) returns (ok: bool)
      requires Valid() && t in rings.places
      modifies rings, rings.repr
      ensures Valid() && (View(), ok) == SuspendThread(old(View()), t.id)
      ensures rings.repr == old(rings.repr) && rings.places.Keys == old(rings.places.Keys)
    {
      ghost var g := View();
      ok := Has(t);
      QueuedCounts(g, t.id);
      if !ok {
        return;
      }
      ok := TakeLive(t);
      if ok {
        KeepsSuspended(g, g.StateOf(t.id), Without(LiveQueue(g, g.StateOf(t.id)), t.id));
        SetAside(t);
      }
    }

    method SetAside(t: Node)
      requires Valid() && rings.Loose(t) && t != current
      modifies rings, rings.repr
      ensures Valid() && View() == old(View()).(sq := Insert(old(View()).sq, PRIO_STD, t.id))
      ensures rings.repr == old(rings.repr) && rings.places.Keys == old(rings.places.Keys)
    {
      rings.Put(SUSPQ, PRIO_STD, t);
    }

    /** pth_resume_local; a thread whose state names no queue would be lost here. */
    method ResumeLocal(t: Node) returns (ok: bool)
      requires Valid() && t in rings.places
      modifies rings, rings.repr
      ensures Valid() && (View(), ok) == ResumeThread(old(View()), t.id)
      ensures rings.repr == old(rings.repr) && rings.places.Keys == old(rings.places.Keys)
    {
      ok := rings.Find(SUSPQ, t);
      if ok {
        rings.Take(SUSPQ, t);
        var k := Slot(tcb(t.id).state);
        if k != -1 {
          rings.Put(k, PRIO_STD, t);
        }
      }
    }

    /** pth_favor_local */
    method FavorLocal(t: Node)
      requires Valid() && t in rings.places
      modifies rings, rings.repr
      ensures Valid() && View() == FavorThread(old(View()), t.id)
      ensures rings.repr == old(rings.repr) && rings.places.Keys == old(rings.places.Keys)
    {
      var ok := Has(t);
      QueuedCounts(View(), t.id);
      var st := tcb(t.id).state;
      if ok && (st == NEW || st == READY) {
        ok := rings.Find(Slot(st), t);
        if ok {
          rings.Prefer(Slot(st), t);
        }
      }
    }

    /** The end of an asynchronous cancellation: the thread is off its queue already. */
    method KickOut(t: Node)
      requires Valid() && rings.Loose(t) && t != current
      modifies this`tcb, this`frees, rings, rings.repr
      ensures Valid() && View() == Kick(old(View()), t.id)
      ensures rings.repr == old(rings.repr) && rings.places.Keys == old(rings.places.Keys)
    {
      if !tcb(t.id).joinable {
        frees := frees + [t.id];
      } else {
        SetStateOf(t, DEAD);
        rings.Put(DEADQ, PRIO_STD, t);
      }
    }

    /** pth_cancel_local */
    method CancelLocal(t: Node) returns (ok: bool)
      requires Valid() && t in rings.places
      modifies this`tcb, this`frees, rings, rings.repr
      ensures Valid() && (View(), ok) == CancelThread(old(View()), t.id)
      ensures rings.repr == old(rings.repr) && rings.places.Keys == old(rings.places.Keys)
    {
      ok := Has(t);
      QueuedCounts(View(), t.id);
      if !ok || tcb(t.id).state == DEAD {
        return false;
      }
      tcb := Set(tcb, t.id, tcb(t.id).(cancelReq := true));
      if tcb(t.id).cancelEnable && tcb(t.id).cancelAsync {
        ok := TakeLive(t);
        if ok {
          KickOut(t);
        }
      }
    }

    /** The dead queue's part of pth_abort_local, of a REAP and of a local pth_join */
    method Reap(t: Node)
      requires Valid() && t in rings.places && Contains(View().dq, t.id)
      modifies this`frees, rings, rings.repr
      ensures Valid() && View() == ReapThread(old(View()), t.id)
      ensures rings.repr == old(rings.repr) && rings.places.Keys == old(rings.places.Keys)
    {
      rings.Sits(DEADQ, t);
      rings.Take(DEADQ, t);
      frees := frees + [t.id];
    }

    /** A thread that has ended already is freed, if it was joinable. */
    method AbortDead(t: Node)
      requires Valid() && t in rings.places && Contains(View().dq, t.id)
      modifies this`frees, rings, rings.repr
      ensures Valid() && View() == if tcb(t.id).joinable then ReapThread(old(View()), t.id) else old(View())
      ensures rings.repr == old(rings.repr) && rings.places.Keys == old(rings.places.Keys)
    {
      if tcb(t.id).joinable {
        Reap(t);
      }
    }

    /** One that has not is detached and cancelled asynchronously. */
    method AbortLive(t: Node)
      requires Valid() && t in rings.places
      modifies this`tcb, this`frees, rings, rings.repr
      ensures Valid()
      ensures var g := old(View());
              var block := g.tcb(t.id).(joinable := false, cancelEnable := true, cancelAsync := true);
              View() == CancelThread(g.(tcb := Set(g.tcb, t.id, block)), t.id).0
      ensures rings.repr == old(rings.repr) && rings.places.Keys == old(rings.places.Keys)
    {
      tcb := Set(tcb, t.id, tcb(t.id).(joinable := false, cancelEnable := true, cancelAsync := true));
      var _ := CancelLocal(t);
    }

    /** pth_abort_local */
    method AbortLocal(t: Node)
      requires Valid() && t in rings.places && Sound(View())
      modifies this`tcb, this`frees, rings, rings.repr
      ensures Valid() && View() == AbortThread(old(View()), t.id)
      ensures rings.repr == old(rings.repr) && rings.places.Keys == old(rings.places.Keys)
    {
      var ok := Has(t);
      QueuedCounts(View(), t.id);
      if !ok {
        return;
      }
      if tcb(t.id).state == DEAD {
        DeadIsInDq(View(), t.id);
        AbortDead(t);
        return;
      }
      AbortLive(t);
    }
  }

  ghost predicate Blank(q: PQ.PQueue)
    reads q
  {
    q.ring == [] && q.Valid()
  }

  method TwoQueues() returns (p: PQ.PQueue, q: PQ.PQueue)
    ensures fresh(p) && fresh(q) && p != q && Blank(p) && Blank(q)
  {
    p := new PQ.PQueue();
    q := new PQ.PQueue();
  }

  method FreshRings() returns (rings: Rings)
    ensures fresh(rings) && fresh(rings.repr) && rings.Valid() && rings.places == map[]
    ensures rings.queues == [[], [], [], [], []]
  {
    var n, r := TwoQueues();
    var w, s := TwoQueues();
    var d, _ := TwoQueues();
    rings := new Rings(n, r, w, s, d);
  }

  /** A scheduler that holds nothing yet */
  method Fresh(memory: Tid -> Tcb) returns (g: Scheduler)
    ensures fresh(g) && fresh(g.rings) && fresh(g.rings.repr) && g.Valid() && g.rings.places == map[]
    ensures g.View() == Gs([], [], [], [], [], None, memory, [])
  {
    var rings := FreshRings();
    g := new Scheduler(rings, memory);
  }

  // The methods as a scheduler uses them: two threads are spawned, one runs and the other is suspended

  method Spawn(g: Scheduler, t: Node, block: Tcb)
    requires g.Valid() && g as object != t && (forall x :: x in g.rings.places ==> x.id != t.id) && t != g.current
    modifies g, g.rings, g.rings.repr, t
    ensures g.Valid() && g.current == old(g.current) && g.View() == AdoptThread(old(g.View()), t.id, block)
    ensures g.rings.repr == old(g.rings.repr) + {t} && g.rings.places.Keys == old(g.rings.places.Keys) + {t}
  {
    g.rings.Learn(t);
    g.Adopt(t, block);
  }

  method SpawnTwo(a: Node, b: Node, block: Tcb, memory: Tid -> Tcb) returns (g: Scheduler)
    requires a.id != b.id
    modifies a, b
    ensures fresh(g) && fresh(g.rings) && fresh(g.rings.repr - {a, b}) && g.Valid() && a in g.rings.places
    ensures g.View() == AdoptThread(AdoptThread(Gs([], [], [], [], [], None, memory, []), a.id, block), b.id, block)
  {
    g := Fresh(memory);
    Spawn(g, a, block);
    Spawn(g, b, block);
  }

  method RunAndSuspend(g: Scheduler, a: Node) returns (any: bool, ok: bool)
    requires g.Valid() && g.current == null && a in g.rings.places
    modifies g, g.rings, g.rings.repr
    ensures g.Valid()
    ensures var moved := MoveAllNew(old(g.View()), false);
            any == (moved.rq != []) && (g.View(), ok) == SuspendThread(if any then DispatchNext(moved) else moved, a.id)
  {
    g.MoveNewThreads(false);
    any := g.DispatchOne();
    ok := g.SuspendLocal(a);
  }

  method RunOneOfTwo(a: Node, b: Node, block: Tcb, memory: Tid -> Tcb) returns (g: Scheduler, any: bool, ok: bool)
    requires a.id != b.id
    modifies a, b
    ensures g.Valid()
    ensures var two := AdoptThread(AdoptThread(Gs([], [], [], [], [], None, memory, []), a.id, block), b.id, block);
            var moved := MoveAllNew(two, false);
            any == (moved.rq != []) && (g.View(), ok) == SuspendThread(if any then DispatchNext(moved) else moved, a.id)
  {
    g := SpawnTwo(a, b, block, memory);
    any, ok := RunAndSuspend(g, a);
  }
}
