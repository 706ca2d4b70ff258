/** The nano executor's linked list, walked and cut in place by a cursor. */
module NanoExecutor {
  import opened Clock
  import opened NanoPass

  class Node {
    const id: nat
    var interval: nat
    var nextRun: nat
    var next: Node?

    /** `interval` starts out as the rate in Hz. */
    constructor (id: nat, freq: nat)
      ensures this.id == id && interval == freq && nextRun == 0 && next == null
    {
      this.id, interval, nextRun, next := id, freq, 0, null;
    }

    ghost function View(): Task
      reads `interval, `nextRun
    {
      Task(id, interval, nextRun)
    }
  }

  ghost function Tasks(nodes: seq<Node>): (ts: seq<Task>)
    reads (set x | x in nodes)`interval, (set x | x in nodes)`nextRun
    ensures |ts| == |nodes| && forall i {:trigger ts[i]} :: 0 <= i < |ts| ==> ts[i] == nodes[i].View()
  {
    if nodes == [] then [] else [nodes[0].View()] + Tasks(nodes[1..])
  }

  twostate lemma TasksSame(nodes: seq<Node>)
    requires forall x :: x in nodes ==> x.interval == old(x.interval) && x.nextRun == old(x.nextRun)
    ensures Tasks(nodes) == old(Tasks(nodes))
  {
    hide Tasks;
    assert |Tasks(nodes)| == old(|Tasks(nodes)|);
  }

  lemma {:induction false} TasksCut(nodes: seq<Node>, k: nat)
    requires k < |nodes|
    ensures Tasks(nodes[..k] + nodes[k + 1..]) == Tasks(nodes)[..k] + Tasks(nodes)[k + 1..]
  {
    if k == 0 {
      assert nodes[..0] + nodes[1..] == nodes[1..];
    } else {
      TasksCut(nodes[1..], k - 1);
      assert (nodes[..k] + nodes[k + 1..])[1..] == nodes[1..][..k - 1] + nodes[1..][k..];
    }
  }

  /** The cursor stands before place `k` of `ts`: what the pass will leave, and
      what it will poll from there. */
  function Rest(ts: seq<Task>, k: nat, time: nat, ready: nat -> bool): seq<Task>
    requires k <= |ts|
  {
    ts[..k] + Pass(ts[k..], time, ready)
  }

  lemma WholeRest(ts: seq<Task>, time: nat, ready: nat -> bool)
    ensures Rest(ts, 0, time, ready) == Pass(ts, time, ready) && ts[0..] == ts
  {
    assert ts[0..] == ts;
  }

  lemma NoRest(ts: seq<Task>, time: nat, ready: nat -> bool)
    ensures Rest(ts, |ts|, time, ready) == ts && Polled(ts[|ts|..], time, ready) == []
  {
  }

  lemma StepOver(ts: seq<Task>, t: Task, k: nat, time: nat, ready: nat -> bool)
    requires k < |ts|
    requires if time < ts[k].next then t == ts[k] else !ready(ts[k].id) && t == Delayed(ts[k], time)
    ensures Rest(ts[k := t], k + 1, time, ready) == Rest(ts, k, time, ready)
    ensures Polled(ts[k..], time, ready)
         == (if time < ts[k].next then [] else [ts[k].id]) + Polled(ts[k := t][k + 1..], time, ready)
  {
    assert ts[k := t][k + 1..] == ts[k..][1..];
    assert ts[k := t][..k + 1] == ts[..k] + [t];
  }

  lemma StepOut(ts: seq<Task>, cut: seq<Task>, k: nat, time: nat, ready: nat -> bool)
    requires k < |ts| && time >= ts[k].next && ready(ts[k].id) && cut == ts[..k] + ts[k + 1..]
    ensures var j := if k < |cut| then k + 1 else k;
      && Rest(cut, j, time, ready) == Rest(ts, k, time, ready)
      && Polled(ts[k..], time, ready) == [ts[k].id] + Polled(cut[j..], time, ready)
  {
    if k < |cut| {
      assert cut[k + 1..] == ts[k..][2..];
      assert cut[..k + 1] == ts[..k] + [ts[k + 1]];
    } else {
      assert cut[..k] == ts[..k] && cut[k..] == [] && |ts[k..]| == 1;
    }
  }

  class Executor {
    var head: Node?
    const freq: nat
    ghost var nodes: seq<Node>

    constructor (freq: nat)
      ensures Valid() && nodes == [] && this.freq == freq
    {
      head, nodes := null, [];
      this.freq := freq;
    }

    /** The links spell out `nodes`. */
    ghost predicate Valid()
      reads `head, `nodes, (set x | x in nodes)`next
    {
      && (forall i, j :: 0 <= i < j < |nodes| ==> nodes[i] != nodes[j])
      && head == (if nodes == [] then null else nodes[0])
      && (forall i {:trigger nodes[i].next} :: 0 <= i < |nodes| ==>
            nodes[i].next == if i + 1 < |nodes| then nodes[i + 1] else null)
    }

    /** `f`, the rate in Hz, becomes the longest interval in ticks that still gives it. */
    method Add(node: Node)
      requires Valid() && node !in nodes
      modifies `head, `nodes, node`interval, node`next
      ensures Valid() && nodes == [node] + old(nodes)
      ensures var ts, f := Tasks(nodes), old(node.interval);
        && ts[1..] == old(Tasks(nodes)) && ts[0].id == node.id && ts[0].next == old(node.nextRun)
        && if f == 0 then ts[0].interval == 0 else ts[0].interval * f <= freq < (ts[0].interval + 1) * f
      ensures Tasks(nodes) == Added(old(Tasks(nodes)), old(node.View()), freq)
    {
      ghost var ts := Tasks(nodes);
      AddedGetsItsInterval(ts, node.View(), freq);
      node.interval := Ticks(node.interval, freq);
      node.next := head;
      head := node;
      nodes := [node] + nodes;
      assert Tasks(nodes) == [node.View()] + ts;
    }

    /** Bridges the link at the cursor over its node. */
    method Bridge(prev: Node?, node: Node, ghost k: nat)
      requires Valid() && k < |nodes| && nodes[k] == node && prev == if k == 0 then null else nodes[k - 1]
      modifies `head, `nodes, (set x | x in nodes)`next
      ensures Valid() && nodes == old(nodes)[..k] + old(nodes)[k + 1..]
    {
      var after := node.next;
      node.next := null;
      if prev == null {
        head := after;
      } else {
        prev.next := after;
      }
      nodes := nodes[..k] + nodes[k + 1..];
    }

    /** The node is gone, and the link that led to it leads to the one behind it. */
    method Remove(prev: Node?, node: Node, ghost k: nat) returns (after: Node?)
      requires Valid() && k < |nodes| && nodes[k] == node && prev == if k == 0 then null else nodes[k - 1]
      modifies `head, `nodes, (set x | x in nodes)`next
      ensures Valid() && nodes == old(nodes)[..k] + old(nodes)[k + 1..]
      ensures Tasks(nodes) == old(Tasks(nodes))[..k] + old(Tasks(nodes))[k + 1..]
      ensures after == if k < |nodes| then nodes[k] else null
    {
      TasksCut(nodes, k);
      hide Tasks, Valid;
      ghost var cut := nodes[..k] + nodes[k + 1..];
      Bridge(prev, node, k);
      TasksSame(cut);
      Links(if k == 0 then 0 else k - 1);
      after := if prev == null then head else prev.next;
    }

    method PutOff(node: Node, ghost k: nat, time: nat)
      requires Valid() && k < |nodes| && nodes[k] == node
      modifies node`nextRun
      ensures Valid() && Tasks(nodes) == old(Tasks(nodes))[k := Delayed(old(Tasks(nodes)[k]), time)]
    {
      node.nextRun := (time + node.interval) % WORD64;
    }

    lemma Links(k: nat)
      requires Valid()
      ensures head == if nodes == [] then null else nodes[0]
      ensures k < |nodes| ==> nodes[k].next == if k + 1 < |nodes| then nodes[k + 1] else null
      ensures k < |nodes| ==> Tasks(nodes)[k] == nodes[k].View()
    {
    }

    /** The body of the walk: the node at the cursor is polled if it is due, and the
        cursor moves on, past the node that takes a removed one's place. */
    method Visit(prev: Node?, cur: Node, ghost k: nat, time: nat, ready: nat -> bool)
      returns (polls: bool, prev': Node?, cur': Node?, ghost k': nat)
      requires Valid() && k < |nodes| && nodes[k] == cur && prev == if k == 0 then null else nodes[k - 1]
      modifies `head, `nodes, (set x | x in nodes)`next, cur`nextRun
      ensures Valid() && k <= k' <= |nodes| && |nodes| - k' < |old(nodes)| - k
      ensures forall x :: x in nodes ==> x in old(nodes)
      ensures prev' == (if k' == 0 then null else nodes[k' - 1]) && cur' == (if k' < |nodes| then nodes[k'] else null)
      ensures Rest(Tasks(nodes), k', time, ready) == old(Rest(Tasks(nodes), k, time, ready))
      ensures old(Polled(Tasks(nodes)[k..], time, ready))
           == (if polls then [cur.id] else []) + Polled(Tasks(nodes)[k'..], time, ready)
    {
      ghost var was := Tasks(nodes);
      hide Valid, Tasks, Rest, Pass, Polled;
      Links(k);
      polls := time >= cur.nextRun;
      prev', cur', k' := prev, cur, k;
      if polls && ready(cur.id) {
        cur' := Remove(prev, cur, k);
        StepOut(was, Tasks(nodes), k, time, ready);
        if cur' == null { return; }
      } else if polls {
        PutOff(cur, k, time);
        StepOver(was, Delayed(was[k], time), k, time, ready);
      } else {
        StepOver(was, was[k], k, time, ready);
        assert was[k := was[k]] == was;
      }
      Links(k);
      prev' := cur';
      cur' := cur'.next;
      k' := k + 1;
    }

    /** One pass; `ready` is what each future would answer.  The nodes left are
        those of the list spec, and so are the polls, in order. */
    method RunStep(time: nat, ready: nat -> bool) returns (polled: seq<nat>)
      requires Valid()
      modifies `head, `nodes, (set x | x in nodes)`next, (set x | x in nodes)`nextRun
      ensures Valid() && forall x :: x in nodes ==> x in old(nodes)
      ensures Tasks(nodes) == Pass(old(Tasks(nodes)), time, ready)
      ensures polled == Polled(old(Tasks(nodes)), time, ready)
    {
      ghost var ts, k, all := Tasks(nodes), 0, nodes;
      var prev: Node?, cur := null, head;
      polled := [];
      hide Valid, Tasks, Pass, Polled;
      Links(0);
      WholeRest(ts, time, ready);
      while cur != null
        invariant Valid() && 0 <= k <= |nodes| && forall x :: x in nodes ==> x in all
        invariant prev == (if k == 0 then null else nodes[k - 1]) && cur == (if k < |nodes| then nodes[k] else null)
        invariant Rest(Tasks(nodes), k, time, ready) == Pass(ts, time, ready)
        invariant polled + Polled(Tasks(nodes)[k..], time, ready) == Polled(ts, time, ready)
        decreases |nodes| - k
      {
        var id := cur.id;
        var polls;
        polls, prev, cur, k := Visit(prev, cur, k, time, ready);
        if polls { polled := polled + [id]; }
      }
      NoRest(Tasks(nodes), time, ready);
    }
  }
}
