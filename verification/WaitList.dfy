/** The cooperative mutex: its intrusive waiter list, relinked in place, and the
    calls on it.  Each call is proved against what it does to the sequence of
    waiters (oldest first). */
module WaitList {
  import opened Options

  /** A task's waker. */
  type Waker = int

  // ----- what the calls do, as values -----

  function Without<Id(==)>(s: seq<Id>, x: Id): seq<Id> {
    if s == [] then [] else if s[0] == x then s[1..] else [s[0]] + Without(s[1..], x)
  }

  /** A lock future: its flag, and the two fields of its node that are not links. */
  datatype Fut = Fut(linked: bool, woken: bool, waker: Option<Waker>)

  datatype Polled<Id> = Polled(locked: bool, list: seq<Id>, fut: Fut, ready: bool, selfWake: bool)

  /** One poll of the lock future of node `id` by a task with waker `cx`. */
  function PollSpec<Id(==)>(locked: bool, list: seq<Id>, id: Id, f: Fut, cx: Waker): Polled<Id> {
    if !locked then
      if f.linked then Polled(true, Without(list, id), f.(linked := false), true, false)
      else Polled(true, list, f, true, false)
    else ParkSpec(locked, list, id, f, cx)
  }

  /** The rest of a poll whose attempt to take the mutex failed. */
  function ParkSpec<Id(==)>(locked: bool, list: seq<Id>, id: Id, f: Fut, cx: Waker): Polled<Id> {
    var list1 := if f.linked then list else list + [id];
    if f.woken then Polled(locked, Without(list1, id), f.(linked := false, woken := false), false, true)
    else Polled(locked, list1, f.(linked := true, waker := Some(cx)), false, false)
  }

  /** How many waiters without a waker stand before the first one with a waker. */
  function Skipped<Id(==)>(list: seq<Id>, wakers: map<Id, Option<Waker>>): (k: nat)
    ensures k <= |list|
    ensures forall j :: 0 <= j < k ==> list[j] in wakers && wakers[list[j]] == None
    ensures k < |list| ==> !(list[k] in wakers && wakers[list[k]] == None)
  {
    if list != [] && list[0] in wakers && wakers[list[0]] == None then 1 + Skipped(list[1..], wakers) else 0
  }

  lemma {:induction false} SkippedIs<Id>(list: seq<Id>, wakers: map<Id, Option<Waker>>, k: nat)
    requires k <= |list| && forall j :: 0 <= j < k ==> list[j] in wakers && wakers[list[j]] == None
    requires k < |list| ==> !(list[k] in wakers && wakers[list[k]] == None)
    ensures Skipped(list, wakers) == k
  {
    if k > 0 { SkippedIs(list[1..], wakers, k - 1); }
  }

  lemma {:induction false} WithoutAt<Id>(s: seq<Id>, x: Id, k: nat)
    requires k < |s| && s[k] == x && forall j :: 0 <= j < k ==> s[j] != x
    ensures Without(s, x) == s[..k] + s[k + 1..]
  {
    if k > 0 {
      WithoutAt(s[1..], x, k - 1);
      assert s[1..][..k - 1] == s[1..k] && s[1..][k..] == s[k + 1..];
    }
  }

  lemma {:induction false} WithoutAbsent<Id>(s: seq<Id>, x: Id)
    requires x !in s
    ensures Without(s, x) == s
  {
    if s != [] { WithoutAbsent(s[1..], x); }
  }

  // ----- the heap -----

  class Waiter {
    var waker: Option<Waker>
    var woken: bool
    var next: Waiter?
    var prev: Waiter?

    constructor ()
      ensures waker == None && !woken && next == null && prev == null
    {
      waker, woken, next, prev := None, false, null, null;
    }
  }

  class AsyncMutex {
    var locked: bool
    var head: Waiter?
    var tail: Waiter?
    ghost var nodes: seq<Waiter>

    /** The links spell out `nodes`, both ways. */
    ghost predicate Valid()
      reads `head, `tail, `nodes, (set x | x in nodes)`next, (set x | x in nodes)`prev
    {
      && (forall i, j :: 0 <= i < j < |nodes| ==> nodes[i] != nodes[j])
      && (nodes == [] ==> head == null && tail == null)
      && (nodes != [] ==> head == nodes[0] && tail == nodes[|nodes| - 1])
      && (forall i {:trigger nodes[i].next} :: 0 <= i < |nodes| ==>
            nodes[i].next == if i + 1 < |nodes| then nodes[i + 1] else null)
      && (forall i {:trigger nodes[i].prev} :: 0 <= i < |nodes| ==>
            nodes[i].prev == if i > 0 then nodes[i - 1] else null)
    }

    ghost function Wakers(): map<Waiter, Option<Waker>>
      reads `nodes, (set x | x in nodes)`waker
    {
      map x | x in nodes :: x.waker
    }

    lemma HeadIsNullExactlyWhenEmpty()
      requires Valid()
      ensures head == null <==> nodes == []
    {
    }

    constructor ()
      ensures Valid() && !locked && nodes == []
    {
      locked, head, tail, nodes := false, null, null, [];
    }

    method TryLock() returns (ok: bool)
      modifies `locked
      ensures ok == !old(locked) && locked
    {
      if locked { return false; }
      locked := true;
      return true;
    }

    /** Links a node at the tail. */
    method Link(node: Waiter)
      requires Valid() && node !in nodes
      modifies `head, `tail, `nodes, node`next, node`prev, (set x | x in nodes)`next, (set x | x in nodes)`prev
      ensures Valid() && nodes == old(nodes) + [node]
    {
      node.prev := tail;
      node.next := null;
      if tail == null {
        head := node;
      } else {
        tail.next := node;
      }
      tail := node;
      nodes := nodes + [node];
    }

    /** Takes a node out if the walk finds it, and touches nothing if not. */
    method Unlink(node: Waiter)
      requires Valid()
      modifies `head, `tail, `nodes, (set x | x in nodes)`next, (set x | x in nodes)`prev
      ensures Valid() && nodes == Without(old(nodes), node)
      ensures node in old(nodes) ==> node.next == null && node.prev == null
      ensures node !in old(nodes) ==> nodes == old(nodes)
      ensures node !in nodes
    {
      var cur := head;
      ghost var k := 0;
      while cur != null
        invariant 0 <= k <= |nodes| && cur == (if k < |nodes| then nodes[k] else null)
        invariant forall j :: 0 <= j < k ==> nodes[j] != node
        decreases |nodes| - k
      {
        if cur == node {
          WithoutAt(nodes, node, k);
          UnlinkFound(cur, k);
          return;
        }
        cur := cur.next;
        k := k + 1;
      }
      WithoutAbsent(nodes, node);
    }

    /** Bridges the neighbours of the node at place `k`. */
    method UnlinkFound(cur: Waiter, ghost k: nat)
      requires Valid() && k < |nodes| && nodes[k] == cur
      modifies `head, `tail, `nodes, (set x | x in nodes)`next, (set x | x in nodes)`prev
      ensures Valid() && nodes == old(nodes)[..k] + old(nodes)[k + 1..]
      ensures cur.next == null && cur.prev == null && cur !in nodes
    {
      ghost var was := nodes;
      if cur.prev == null {
        head := cur.next;
      } else {
        cur.prev.next := cur.next;
      }
      if cur.next == null {
        tail := cur.prev;
      } else {
        cur.next.prev := cur.prev;
      }
      cur.next := null;
      cur.prev := null;
      nodes := nodes[..k] + nodes[k + 1..];
      CutIsLinked(was, k);
    }

    /** The links skip place `k` of `was`, both ways. */
    ghost predicate Skips(was: seq<Waiter>, k: nat)
      requires k < |was|
      reads `head, `tail, (set x | x in was)`next, (set x | x in was)`prev
    {
      && (forall i, j :: 0 <= i < j < |was| ==> was[i] != was[j])
      && head == (if k > 0 then was[0] else if |was| > 1 then was[1] else null)
      && tail == (if k + 1 < |was| then was[|was| - 1] else if k > 0 then was[k - 1] else null)
      && (forall i {:trigger was[i].next} :: 0 <= i < |was| && i != k ==>
            was[i].next == var n := if i + 1 == k then k + 1 else i + 1; if n < |was| then was[n] else null)
      && (forall i {:trigger was[i].prev} :: 0 <= i < |was| && i != k ==>
            was[i].prev == var n := if i - 1 == k then k - 1 else i - 1; if n >= 0 then was[n] else null)
    }

    lemma CutIsLinked(was: seq<Waiter>, k: nat)
      requires k < |was| && Skips(was, k) && nodes == was[..k] + was[k + 1..]
      ensures Valid() && was[k] !in nodes
    {
      assert forall i :: 0 <= i < |nodes| ==> nodes[i] == was[if i < k then i else i + 1];
    }

    /** Takes the head off the list. */
    method PopFront() returns (node: Waiter)
      requires Valid() && head != null
      modifies `head, `tail, `nodes, (set x | x in nodes)`next, (set x | x in nodes)`prev
      ensures Valid() && node == old(nodes)[0] && nodes == old(nodes)[1..] && node !in nodes
      ensures node.next == null && node.prev == null
    {
      node := head;
      head := node.next;
      if head == null {
        tail := null;
      } else {
        head.prev := null;
      }
      node.next := null;
      node.prev := null;
      nodes := nodes[1..];
    }

    /** The pop loop of `unlock`: pops waiters up to the first with a waker. */
    method PopParked() returns (node: Waiter?)
      requires Valid()
      modifies `head, `tail, `nodes, (set x | x in nodes)`next, (set x | x in nodes)`prev
      ensures Valid()
      ensures var k := Skipped(old(nodes), old(Wakers()));
        if k == |old(nodes)| then node == null && nodes == []
        else
          && node == old(nodes)[k] && nodes == old(nodes)[k + 1..]
          && node.next == null && node.prev == null && node.waker.Some?
      ensures node != null ==> node in old(nodes) && node !in nodes
    {
      hide Valid;
      ghost var all, w, k := nodes, Wakers(), 0;
      while true
        invariant 0 <= k <= |all| && nodes == all[k..] && Valid()
        invariant forall j :: 0 <= j < k ==> all[j] in w && w[all[j]] == None
        decreases |all| - k
      {
        HeadIsNullExactlyWhenEmpty();
        if head == null {
          SkippedIs(all, w, k);
          return null;
        }
        node := PopFront();
        if node.waker.Some? {
          SkippedIs(all, w, k);
          return;
        }
        k := k + 1;
      }
    }

    /** Marks a popped node and takes its waker. */
    method TakeWaker(node: Waiter) returns (w: Waker)
      requires Valid() && node !in nodes && node.waker.Some?
      modifies node`waker, node`woken
      ensures Valid() && w == old(node.waker.value) && node.waker == None && node.woken
    {
      w := node.waker.value;
      node.waker := None;
      node.woken := true;
    }

    /** Frees the mutex and wakes the first waiter that has a waker: its node is
        popped, marked and gives its waker up.  Nothing else is marked. */
    method Unlock() returns (wake: Option<Waker>)
      requires Valid()
      modifies `locked, `head, `tail, `nodes, (set x | x in nodes)
      ensures Valid() && !locked
      ensures var k := Skipped(old(nodes), old(Wakers()));
        && (k == |old(nodes)| ==> wake == None && nodes == [])
        && (k < |old(nodes)| ==>
              && nodes == old(nodes)[k + 1..] && wake == old(nodes[k].waker) && wake.Some?
              && old(nodes)[k].woken && old(nodes)[k].waker == None
              && old(nodes)[k].next == null && old(nodes)[k].prev == null)
        && (forall x :: x in old(nodes) && !(k < |old(nodes)| && x == old(nodes)[k]) ==>
              x.waker == old(x.waker) && x.woken == old(x.woken))
    {
      hide Valid;
      locked := false;
      var node := PopParked();
      if node == null { return None; }
      var w := TakeWaker(node);
      return Some(w);
    }
  }

  /** A lock future: its node lies in it, so the links stay inside live futures. */
  class LockFuture {
    const mutex: AsyncMutex
    const node: Waiter
    var linked: bool

    ghost function View(): Fut
      reads this, node
    {
      Fut(linked, node.woken, node.waker)
    }

    constructor (mutex: AsyncMutex)
      requires mutex.Valid()
      ensures this.mutex == mutex && fresh(node) && View() == Fut(false, false, None)
    {
      this.mutex := mutex;
      var w := new Waiter();
      node := w;
      linked := false;
    }

    /** One poll does to the flag, the list and this node what `PollSpec` says;
        no other node's waker or mark is touched. */
    method Poll(cx: Waker) returns (ready: bool, selfWake: bool)
      requires mutex.Valid() && (!linked ==> node !in mutex.nodes)
      modifies `linked, node`woken, node`waker, node`next, node`prev
      modifies mutex`locked, mutex`head, mutex`tail, mutex`nodes
      modifies (set x | x in mutex.nodes)`next, (set x | x in mutex.nodes)`prev
      ensures mutex.Valid() && (!linked ==> node !in mutex.nodes)
      ensures Polled(mutex.locked, mutex.nodes, View(), ready, selfWake)
           == PollSpec(old(mutex.locked), old(mutex.nodes), node, old(View()), cx)
    {
      hide AsyncMutex.Valid, Without;
      var free := mutex.TryLock();
      if free {
        if linked {
          mutex.Unlink(node);
          linked := false;
        }
        return true, false;
      }
      if !linked {
        mutex.Link(node);
        linked := true;
      }
      if node.woken {
        mutex.Unlink(node);
        linked := false;
        node.woken := false;
        return false, true;
      }
      node.waker := Some(cx);
      return false, false;
    }

    /** Dropping a future takes its node out of the list if it is still there. */
    method Drop()
      requires mutex.Valid() && (!linked ==> node !in mutex.nodes)
      modifies mutex`head, mutex`tail, mutex`nodes
      modifies (set x | x in mutex.nodes)`next, (set x | x in mutex.nodes)`prev
      ensures mutex.Valid() && node !in mutex.nodes
      ensures mutex.nodes == if old(linked) then Without(old(mutex.nodes), node) else old(mutex.nodes)
    {
      if linked { mutex.Unlink(node); }
    }
  }
}
