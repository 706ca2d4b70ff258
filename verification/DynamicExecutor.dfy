/** One core's executor, as the code runs it: `spawn`, and the scheduling pass
    with its steal loop and its budgeted pop loop.  Every call is shown to be a
    run of the machine, so that what holds of all runs holds of the calls. */
module DynamicExecutor {
  import opened Clock
  import opened Options
  import opened Registry
  import opened DynamicMachine
  import opened DynamicRuns

  class Worker {
    var nodes: seq<Node>

    constructor ()
      ensures nodes == []
    {
      nodes := [];
    }

    method Push(n: Node) returns (ok: bool)
      modifies this
      ensures ok == (|old(nodes)| < CAP)
      ensures nodes == if ok then old(nodes) + [n] else old(nodes)
    {
      ok := |nodes| < CAP;
      if ok { nodes := nodes + [n]; }
    }

    /** The node pushed last, if any. */
    method Pop() returns (n: Option<Node>)
      modifies this
      ensures old(nodes) == [] ==> n == None && nodes == []
      ensures old(nodes) != [] ==> n.Some? && old(nodes) == nodes + [n.value]
    {
      if nodes == [] { return None; }
      n := Some(nodes[|nodes| - 1]);
      nodes := nodes[..|nodes| - 1];
    }
  }

  /** Some run of the machine leads from `s` to `t`. */
  ghost predicate Reaches(s: State, t: State) {
    exists acts :: Legal(s, acts) && After(s, acts) == t
  }

  lemma ReachesSelf(s: State)
    ensures Reaches(s, s)
  {
    assert Legal(s, []) && After(s, []) == s;
  }

  lemma {:induction false} RunSnoc(s: State, acts: seq<Act>, a: Act)
    requires Legal(s, acts) && Enabled(After(s, acts), a)
    ensures Legal(s, acts + [a]) && After(s, acts + [a]) == Next(After(s, acts), a)
    decreases |acts|
  {
    hide Enabled, Next;
    if acts == [] {
      assert acts + [a] == [a] && [a][1..] == [];
      assert Legal(Next(s, a), [a][1..]);
    } else {
      RunSnoc(Next(s, acts[0]), acts[1..], a);
      assert (acts + [a])[1..] == acts[1..] + [a];
    }
  }

  /** The executor's core is the first one; `k` is that core. */
  function At(k: Core, rest: seq<Core>, reg: seq<Slot>, nextId: nat): State {
    State([k] + rest, reg, nextId)
  }

  lemma CoreMoves(s: State, k: Core, rest: seq<Core>, reg: seq<Slot>, nextId: nat, a: Act)
    requires Reaches(s, At(k, rest, reg, nextId)) && OfOneCore(a) && a.c == 0 && CoreEnabled(k.ctl, a)
    ensures var id := if a.Fetch? then nextId + 1 else nextId;
      Reaches(s, At(CoreNext(k, reg, nextId, a), rest, RegNext(k.ctl, reg, a), id))
  {
    var t := At(k, rest, reg, nextId);
    assert t.cores[0] == k && Enabled(t, a);
    CoreStep(t, a);
    hide CoreNext, RegNext, CoreEnabled, Enabled, Next;
    assert ([k] + rest)[0 := CoreNext(k, reg, nextId, a)] == [CoreNext(k, reg, nextId, a)] + rest;
    var acts :| Legal(s, acts) && After(s, acts) == t;
    RunSnoc(s, acts, a);
  }

  /** One batch from sibling number `j`. */
  lemma CoreSteals(s: State, k: Core, rest: seq<Core>, reg: seq<Slot>, nextId: nat, j: nat, count: nat)
    requires Reaches(s, At(k, rest, reg, nextId)) && k.ctl.Stealing? && j < |rest|
    requires count <= BATCH && count <= |rest[j].queue| && |k.queue| + count <= CAP
    ensures var q := rest[j].queue;
      Reaches(s, At(k.(queue := k.queue + q[..count]), rest[j := rest[j].(queue := q[count..])], reg, nextId))
  {
    var t := At(k, rest, reg, nextId);
    var a := Steal(0, j + 1, count);
    assert t.cores[0] == k && t.cores[j + 1] == rest[j] && Enabled(t, a);
    var q := rest[j].queue;
    var u := At(k.(queue := k.queue + q[..count]), rest[j := rest[j].(queue := q[count..])], reg, nextId);
    assert Next(t, a).cores == u.cores;
    var acts :| Legal(s, acts) && After(s, acts) == t;
    RunSnoc(s, acts, a);
  }

  // ----- a pass, as values -----

  datatype Polled = Polled(done: bool, node: Node, reg: seq<Slot>)

  /** One poll of a node that was popped at `time`. */
  function PollSpec(n: Node, reg: seq<Slot>, base: nat, time: nat, ready: bool): Polled {
    var info := Lookup(reg, n.id);
    if info.None? || info.value.cancelled then Polled(true, n, Synced(reg, n.id))
    else if time < n.next then Polled(false, n, reg)
    else
      var d := Ticks(info.value.freq, base);
      if ready then Polled(true, n.(interval := d), Retired(reg, n.id))
      else Polled(false, Node(n.id, d, (time + d) % WORD64), reg)
  }

  datatype Pass = Pass(queue: seq<Node>, reg: seq<Slot>)

  function TurnSpec(p: Pass, base: nat, time: nat, ready: bool): Pass
    requires p.queue != []
  {
    var last := |p.queue| - 1;
    var r := PollSpec(p.queue[last], p.reg, base, time, ready);
    Pass(if r.done then p.queue[..last] else p.queue[..last] + [r.node], r.reg)
  }

  /** The registry still lets the node run. */
  predicate Runs(reg: seq<Slot>, id: nat) {
    Lookup(reg, id).Some? && !Lookup(reg, id).value.cancelled
  }

  /** The turn polls the node's future. */
  predicate Asks(n: Node, reg: seq<Slot>, time: nat) {
    Runs(reg, n.id) && n.next <= time
  }

  /** Whose future one turn polls. */
  function TurnPolls(p: Pass, time: nat): seq<nat>
    requires p.queue != []
  {
    var n := p.queue[|p.queue| - 1];
    if Asks(n, p.reg, time) then [n.id] else []
  }

  /** What is left after at most `budget` turns. */
  function PassSpec(p: Pass, base: nat, time: nat, ready: nat -> bool, budget: nat): Pass
    decreases budget
  {
    if budget == 0 || p.queue == [] then p
    else PassSpec(TurnSpec(p, base, time, ready(budget - 1)), base, time, ready, budget - 1)
  }

  /** Whose futures at most `budget` turns poll, in order. */
  function PassPolls(p: Pass, base: nat, time: nat, ready: nat -> bool, budget: nat): seq<nat>
    decreases budget
  {
    if budget == 0 || p.queue == [] then []
    else TurnPolls(p, time) + PassPolls(TurnSpec(p, base, time, ready(budget - 1)), base, time, ready, budget - 1)
  }

  lemma PassUnfolds(p: Pass, base: nat, time: nat, ready: nat -> bool, budget: nat)
    ensures budget == 0 || p.queue == [] ==>
      PassSpec(p, base, time, ready, budget) == p && PassPolls(p, base, time, ready, budget) == []
    ensures budget > 0 && p.queue != [] ==>
      var t := TurnSpec(p, base, time, ready(budget - 1));
      && PassSpec(p, base, time, ready, budget) == PassSpec(t, base, time, ready, budget - 1)
      && PassPolls(p, base, time, ready, budget)
         == TurnPolls(p, time) + PassPolls(t, base, time, ready, budget - 1)
  {
  }

  predicate HasNode(q: seq<Node>, id: nat) {
    exists i :: 0 <= i < |q| && q[i].id == id
  }

  /** The ticks until the node's next run, should it be polled now. */
  function Pause(n: Node, reg: seq<Slot>, base: nat): nat
    requires Runs(reg, n.id)
  {
    Ticks(Lookup(reg, n.id).value.freq, base)
  }

  /** Polled at `time`, the node is due again at `time`: it runs at every step, or
      its next time wraps. */
  predicate DueAgain(n: Node, reg: seq<Slot>, base: nat, time: nat)
    requires Runs(reg, n.id)
  {
    (time + Pause(n, reg, base)) % WORD64 <= time
  }

  /** The back node leaves during a pass of `budget` turns: its slot is gone or
      cancelled, or it is due and finishes, at its one poll or, if it is due again
      after each, at any. */
  predicate Leaves(n: Node, reg: seq<Slot>, base: nat, time: nat, ready: nat -> bool, budget: nat)
    requires budget > 0
  {
    || !Runs(reg, n.id)
    || (n.next <= time &&
        if DueAgain(n, reg, base, time) then exists k: nat :: k < budget && ready(k) else ready(budget - 1))
  }

  /** Only the back node has changed, and it is still there. */
  predicate OnlyBackMoved(p: Pass, t: Pass) {
    && 0 < |p.queue| == |t.queue| && t.reg == p.reg
    && var n := |p.queue| - 1;
       t.queue[..n] == p.queue[..n] && t.queue[n].id == p.queue[n].id
  }

  /** A turn of a node that does not leave. */
  lemma TurnKeepsTheRest(p: Pass, base: nat, time: nat, ready: bool)
    requires p.queue != []
    requires var n := p.queue[|p.queue| - 1]; Runs(p.reg, n.id) && (n.next <= time ==> !ready)
    ensures var t, n := TurnSpec(p, base, time, ready), p.queue[|p.queue| - 1];
      && OnlyBackMoved(p, t)
      && t.queue[|p.queue| - 1].next == if time < n.next then n.next else (time + Pause(n, p.reg, base)) % WORD64
  {
  }

  lemma TurnTakesItOut(p: Pass, base: nat, time: nat, ready: bool)
    requires p.queue != [] && !HasNode(p.queue[..|p.queue| - 1], p.queue[|p.queue| - 1].id)
    requires var n := p.queue[|p.queue| - 1]; !Runs(p.reg, n.id) || (n.next <= time && ready)
    ensures !HasNode(TurnSpec(p, base, time, ready).queue, p.queue[|p.queue| - 1].id)
  {
  }

  lemma TurnAddsNone(p: Pass, base: nat, time: nat, ready: bool, id: nat)
    requires p.queue != [] && !HasNode(p.queue, id)
    ensures !HasNode(TurnSpec(p, base, time, ready).queue, id)
  {
    var q := TurnSpec(p, base, time, ready).queue;
    forall i | 0 <= i < |q| ensures q[i].id != id { assert p.queue[i].id != id; }
  }

  lemma {:induction false} PassAddsNone(p: Pass, base: nat, time: nat, ready: nat -> bool, budget: nat, id: nat)
    requires !HasNode(p.queue, id)
    ensures !HasNode(PassSpec(p, base, time, ready, budget).queue, id)
    decreases budget
  {
    hide TurnSpec, HasNode;
    if budget > 0 && p.queue != [] {
      TurnAddsNone(p, base, time, ready(budget - 1), id);
      PassAddsNone(TurnSpec(p, base, time, ready(budget - 1)), base, time, ready, budget - 1, id);
    }
  }

  /** A node that is not due takes every turn of the pass for nothing. */
  lemma {:induction false} ANodeNotDueTakesThePass(p: Pass, base: nat, time: nat, ready: nat -> bool, budget: nat)
    requires p.queue != [] && Runs(p.reg, p.queue[|p.queue| - 1].id) && time < p.queue[|p.queue| - 1].next
    ensures PassSpec(p, base, time, ready, budget) == p && PassPolls(p, base, time, ready, budget) == []
    decreases budget
  {
    if budget > 0 {
      assert TurnSpec(p, base, time, ready(budget - 1)) == p && TurnPolls(p, time) == [];
      hide TurnSpec, TurnPolls;
      ANodeNotDueTakesThePass(p, base, time, ready, budget - 1);
    }
  }

  lemma PollsUnfold(p: Pass, base: nat, time: nat, ready: nat -> bool, budget: nat)
    requires p.queue != [] && budget > 0
    ensures var n, u := p.queue[|p.queue| - 1], TurnSpec(p, base, time, ready(budget - 1));
      forall id :: id in PassPolls(p, base, time, ready, budget) ==>
        id == n.id || id in PassPolls(u, base, time, ready, budget - 1)
  {
    hide TurnSpec;
  }

  /** A pass is not one turn per node: a requeued node is the next one popped.  The
      pass gets past its back node exactly if that node leaves; if not, it takes
      every turn, and the nodes below it are left as they were and not polled, due
      or not. */
  lemma {:induction false} PassGetsPastItsBackNodeExactly(
      p: Pass, base: nat, time: nat, ready: nat -> bool, budget: nat)
    requires p.queue != [] && budget > 0 && !HasNode(p.queue[..|p.queue| - 1], p.queue[|p.queue| - 1].id)
    ensures var n, t := p.queue[|p.queue| - 1], PassSpec(p, base, time, ready, budget);
      if Leaves(n, p.reg, base, time, ready, budget) then !HasNode(t.queue, n.id)
      else OnlyBackMoved(p, t) && forall id :: id in PassPolls(p, base, time, ready, budget) ==> id == n.id
    decreases budget
  {
    hide TurnSpec, HasNode, Lookup, Ticks, TurnPolls;
    PollsUnfold(p, base, time, ready, budget);
    var n := p.queue[|p.queue| - 1];
    var u := TurnSpec(p, base, time, ready(budget - 1));
    if !Runs(p.reg, n.id) || (n.next <= time && ready(budget - 1)) {
      TurnTakesItOut(p, base, time, ready(budget - 1));
      PassAddsNone(u, base, time, ready, budget - 1, n.id);
    } else {
      TurnKeepsTheRest(p, base, time, ready(budget - 1));
      var m := u.queue[|u.queue| - 1];
      if time < m.next {
        ANodeNotDueTakesThePass(u, base, time, ready, budget - 1);
      } else if budget > 1 {
        PassGetsPastItsBackNodeExactly(u, base, time, ready, budget - 1);
        assert (exists k: nat :: k < budget && ready(k)) <==> (exists k: nat :: k < budget - 1 && ready(k));
      } else {
        assert (exists k: nat :: k < 1 && ready(k)) <==> ready(0);
      }
    }
  }

  lemma {:induction false} PollsAreOfNodes(
      p: Pass, base: nat, time: nat, ready: nat -> bool, budget: nat, id: nat)
    requires !HasNode(p.queue, id)
    ensures id !in PassPolls(p, base, time, ready, budget)
    decreases budget
  {
    hide TurnSpec, TurnPolls, PassSpec, PassPolls, HasNode;
    PassUnfolds(p, base, time, ready, budget);
    if budget > 0 && p.queue != [] {
      OtherBackNode(p, time, id);
      TurnAddsNone(p, base, time, ready(budget - 1), id);
      PollsAreOfNodes(TurnSpec(p, base, time, ready(budget - 1)), base, time, ready, budget - 1, id);
    }
  }

  lemma OtherBackNode(p: Pass, time: nat, id: nat)
    requires p.queue != [] && !HasNode(p.queue, id)
    ensures id !in TurnPolls(p, time)
  {
    assert p.queue[|p.queue| - 1].id != id;
  }

  /** The pass polls its back node exactly if the registry lets it run and it is due. */
  lemma TheBackNodeIsPolledExactly(p: Pass, base: nat, time: nat, ready: nat -> bool, budget: nat)
    requires p.queue != [] && budget > 0 && !HasNode(p.queue[..|p.queue| - 1], p.queue[|p.queue| - 1].id)
    ensures var n := p.queue[|p.queue| - 1];
      n.id in PassPolls(p, base, time, ready, budget) <==> Runs(p.reg, n.id) && n.next <= time
  {
    hide TurnSpec, PassSpec, PassPolls, HasNode, Lookup, Ticks;
    var n := p.queue[|p.queue| - 1];
    var u := TurnSpec(p, base, time, ready(budget - 1));
    PassUnfolds(p, base, time, ready, budget);
    if !Runs(p.reg, n.id) {
      TurnTakesItOut(p, base, time, ready(budget - 1));
      PollsAreOfNodes(u, base, time, ready, budget - 1, n.id);
    } else if time < n.next {
      ANodeNotDueTakesThePass(p, base, time, ready, budget);
    }
  }

  /** The node is gone after its first turn, whichever turn that is. */
  ghost predicate LeavesAtOnce(n: Node, reg: seq<Slot>, time: nat, ready: nat -> bool) {
    !Runs(reg, n.id) || (n.next <= time && forall k: nat :: ready(k))
  }

  /** The nodes carry different ids. */
  predicate DistinctNodes(q: seq<Node>) {
    forall i, j :: 0 <= i < j < |q| ==> q[i].id != q[j].id
  }

  /** The turn of a node that leaves changes nothing for any other. */
  lemma LeavingLeavesTheRest(p: Pass, base: nat, time: nat, ready: bool, id: nat)
    requires p.queue != [] && Distinct(p.reg) && p.queue[|p.queue| - 1].id != id
    requires var n := p.queue[|p.queue| - 1]; !Runs(p.reg, n.id) || (n.next <= time && ready)
    ensures var u := TurnSpec(p, base, time, ready);
      u.queue == p.queue[..|p.queue| - 1] && Distinct(u.reg) && Lookup(u.reg, id) == Lookup(p.reg, id)
  {
    var n := p.queue[|p.queue| - 1];
    SyncReapsTheCancelled(p.reg, n.id, id);
    RetireRemovesOne(p.reg, n.id, id);
    hide Lookup, Synced, Retired, Ticks;
  }

  /** A pass goes on behind the nodes that leave: node `i` is polled exactly if it
      runs and is due, once all behind it leave at once and the turns suffice. */
  lemma {:induction false} APassGoesOn(p: Pass, base: nat, time: nat, ready: nat -> bool, budget: nat, i: nat)
    requires i < |p.queue| <= budget + i && Distinct(p.reg) && DistinctNodes(p.queue)
    requires forall j :: i < j < |p.queue| ==> LeavesAtOnce(p.queue[j], p.reg, time, ready)
    ensures p.queue[i].id in PassPolls(p, base, time, ready, budget) <==>
      Runs(p.reg, p.queue[i].id) && p.queue[i].next <= time
    decreases |p.queue|
  {
    hide TurnSpec, TurnPolls, PassSpec, PassPolls, Lookup, Distinct;
    var last, id := |p.queue| - 1, p.queue[i].id;
    if i == last {
      TheBackNodeIsPolledExactly(p, base, time, ready, budget);
    } else {
      var u := TurnSpec(p, base, time, ready(budget - 1));
      PassUnfolds(p, base, time, ready, budget);
      PollsOne(p, time);
      forall j | i <= j < last ensures Lookup(u.reg, p.queue[j].id) == Lookup(p.reg, p.queue[j].id) {
        LeavingLeavesTheRest(p, base, time, ready(budget - 1), p.queue[j].id);
      }
      LeavingLeavesTheRest(p, base, time, ready(budget - 1), id);
      APassGoesOn(u, base, time, ready, budget - 1, i);
    }
  }

  lemma PollsOne(p: Pass, time: nat)
    requires p.queue != []
    ensures forall id :: id in TurnPolls(p, time) ==> id == p.queue[|p.queue| - 1].id
  {
  }

  /** A pass over nodes that all leave at once empties a queue of up to `CAP` nodes. */
  lemma {:induction false} APassEmptiesTheQueue(p: Pass, base: nat, time: nat, ready: nat -> bool, budget: nat)
    requires |p.queue| <= budget && Distinct(p.reg) && DistinctNodes(p.queue)
    requires forall j :: 0 <= j < |p.queue| ==> LeavesAtOnce(p.queue[j], p.reg, time, ready)
    ensures PassSpec(p, base, time, ready, budget).queue == []
    decreases |p.queue|
  {
    hide TurnSpec, PassSpec, Lookup, Distinct;
    PassUnfolds(p, base, time, ready, budget);
    if p.queue != [] {
      var last := |p.queue| - 1;
      var u := TurnSpec(p, base, time, ready(budget - 1));
      forall j | 0 <= j < last ensures Lookup(u.reg, p.queue[j].id) == Lookup(p.reg, p.queue[j].id) {
        LeavingLeavesTheRest(p, base, time, ready(budget - 1), p.queue[j].id);
      }
      LeavingLeavesTheRest(p, base, time, ready(budget - 1), p.queue[last].id + 1);
      APassEmptiesTheQueue(u, base, time, ready, budget - 1);
    }
  }

  /** How many nodes one steal moves: a batch, if there are as many and they fit. */
  function Batch(available: nat, queued: nat): (k: nat)
    ensures k <= BATCH && k <= available && (queued <= CAP ==> queued + k <= CAP)
    ensures k == BATCH || k == available || queued + k >= CAP
  {
    var room := if queued < CAP then CAP - queued else 0;
    var k := if available < BATCH then available else BATCH;
    if k < room then k else room
  }

  /** The queue after one batch from each of the first `i` siblings. */
  function Gathered(q: seq<Node>, srcs: seq<seq<Node>>, i: nat): (g: seq<Node>)
    requires i <= |srcs|
    ensures |q| <= CAP ==> |g| <= CAP
  {
    if i == 0 then q
    else var g := Gathered(q, srcs, i - 1); g + srcs[i - 1][..Batch(|srcs[i - 1]|, |g|)]
  }

  /** What is left in a sibling's queue after its batch was taken. */
  function Left(q: seq<Node>, srcs: seq<seq<Node>>, i: nat): seq<Node>
    requires i < |srcs|
  {
    srcs[i][Batch(|srcs[i]|, |Gathered(q, srcs, i)|)..]
  }

  lemma GatheredStep(q: seq<Node>, srcs: seq<seq<Node>>, i: nat)
    ensures Gathered(q, srcs, 0) == q
    ensures i < |srcs| ==> var g := Gathered(q, srcs, i);
      var k := Batch(|srcs[i]|, |g|);
      Gathered(q, srcs, i + 1) == g + srcs[i][..k] && Left(q, srcs, i) == srcs[i][k..]
  {
  }

  /** The first four of each of the first `i` queues, or all of one that has fewer. */
  function Heads(srcs: seq<seq<Node>>, i: nat): seq<Node>
    requires i <= |srcs|
  {
    if i == 0 then []
    else var m := |srcs[i - 1]|; Heads(srcs, i - 1) + srcs[i - 1][..if m < 4 then m else 4]
  }

  lemma HeadsStep(srcs: seq<seq<Node>>, i: nat, k: nat)
    requires i < |srcs| && k == if |srcs[i]| < 4 then |srcs[i]| else 4
    ensures Heads(srcs, i + 1) == Heads(srcs, i) + srcs[i][..k]
  {
  }

  /** With room for four of each, each sibling loses its first four, in their order. */
  lemma {:induction false} EachGivesABatch(q: seq<Node>, srcs: seq<seq<Node>>, i: nat)
    requires i <= |srcs| && |q| + 4 * i <= CAP
    ensures |Gathered(q, srcs, i)| <= |q| + 4 * i && Gathered(q, srcs, i) == q + Heads(srcs, i)
    ensures forall j :: 0 <= j < i ==> Left(q, srcs, j) == srcs[j][if |srcs[j]| < 4 then |srcs[j]| else 4..]
  {
    hide Batch, Gathered, Left;
    if i == 0 {
      GatheredStep(q, srcs, 0);
      assert q + [] == q;
    } else {
      EachGivesABatch(q, srcs, i - 1);
      hide Heads;
      GatheredStep(q, srcs, i - 1);
      var k := Batch(|srcs[i - 1]|, |Gathered(q, srcs, i - 1)|);
      HeadsStep(srcs, i - 1, k);
      Associate(q, Heads(srcs, i - 1), srcs[i - 1][..k]);
    }
  }

  lemma Associate(a: seq<Node>, b: seq<Node>, c: seq<Node>)
    ensures (a + b) + c == a + (b + c)
  {
  }

  class Executor {
    const store: Store
    const worker: Worker
    const stealers: seq<Worker>
    const base: nat

    constructor (store: Store, worker: Worker, stealers: seq<Worker>, base: nat)
      requires worker !in stealers && forall i, j :: 0 <= i < j < |stealers| ==> stealers[i] != stealers[j]
      ensures this.store == store && this.worker == worker && this.stealers == stealers && this.base == base
      ensures Valid()
    {
      this.store, this.worker, this.stealers, this.base := store, worker, stealers, base;
    }

    /** No executor steals from itself, nor twice from the same sibling. */
    ghost predicate Valid() {
      worker !in stealers && forall i, j :: 0 <= i < j < |stealers| ==> stealers[i] != stealers[j]
    }

    ghost function Others(): (r: seq<Core>)
      reads (set x | x in stealers)
      ensures |r| == |stealers| && forall i :: 0 <= i < |r| ==> r[i] == Core(stealers[i].nodes, Idle, 0)
    {
      seq(|stealers|, i requires 0 <= i < |stealers| reads (set x | x in stealers) => Core(stealers[i].nodes, Idle, 0))
    }

    /** This core at control point `ctl`, its siblings and the registry, as a state of the machine. */
    ghost function View(ctl: Ctl): State
      reads worker, (set x | x in stealers), store
    {
      At(Core(worker.nodes, ctl, base), Others(), store.slots, store.nextId)
    }

    /** `None` exactly if the queue was full; then the slot is dead again. */
    method Spawn(freq: nat) returns (id: Option<nat>)
      requires Valid()
      modifies worker, store
      ensures Reaches(old(View(Idle)), View(Idle))
      ensures store.nextId == old(store.nextId) + 1
      ensures id == if |old(worker.nodes)| < CAP then Some(old(store.nextId)) else None
      ensures worker.nodes ==
        old(worker.nodes) + if id.Some? then [Node(id.value, Ticks(freq, base), 0)] else []
      ensures var was := Inserted(old(store.slots), old(store.nextId), freq);
        store.slots == if id.Some? then was else Retired(was, old(store.nextId))
    {
      ghost var s, rest := View(Idle), Others();
      ReachesSelf(s);
      hide Reaches;
      var issued := store.FetchId();
      CoreMoves(s, Core(worker.nodes, Idle, base), rest, store.slots, issued, Fetch(0, freq));
      store.Insert(issued, freq);
      CoreMoves(s, Core(worker.nodes, Fetched(issued, freq), base), rest, old(store.slots), store.nextId, Register(0));
      var node := Node(issued, Ticks(freq, base), 0);
      var ok := worker.Push(node);
      CoreMoves(s, Core(old(worker.nodes), Spawning(node), base), rest, store.slots, store.nextId, PushNew(0));
      assert Others() == rest;
      if ok { return Some(issued); }
      CoreMoves(s, Core(worker.nodes, Refused(issued), base), rest, store.slots, store.nextId, GiveUp(0));
      store.Retire(issued);
      return None;
    }

    /** Syncs with the registry, then polls the node if it is due; `ready` is what
        the future would answer.  `done` means that the node is not to be requeued,
        `asked` that the future was polled. */
    method PollOne(node: Node, budget: nat, time: nat, ready: bool, ghost s: State)
      returns (done: bool, after: Node, asked: bool)
      requires Valid() && Reaches(s, View(Holding(budget, time, node)))
      modifies store
      ensures Reaches(s, View(if done then Draining(budget, time) else Returning(budget, time, after)))
      ensures Polled(done, after, store.slots) == PollSpec(node, old(store.slots), base, time, ready)
      ensures store.nextId == old(store.nextId) && asked == Asks(node, old(store.slots), time)
    {
      hide Reaches;
      ghost var rest, q, n := Others(), worker.nodes, store.nextId;
      CoreMoves(s, Core(q, Holding(budget, time, node), base), rest, store.slots, n, Sync(0));
      var info := store.Sync(node.id);
      after := node;
      if info.None? || info.value.cancelled { return true, node, false; }
      if time < node.next { return false, node, false; }
      after := node.(interval := Ticks(info.value.freq, base));
      CoreMoves(s, Core(q, Due(budget, time, after), base), rest, store.slots, n, Poll(0, ready));
      if ready {
        CoreMoves(s, Core(q, Finished(budget, time, node.id), base), rest, store.slots, n, Reap(0));
        store.Retire(node.id);
        return true, after, true;
      }
      after := after.(next := (time + after.interval) % WORD64);
      return false, after, true;
    }

    /** One turn of the pop loop: the back node is polled and, unless done, requeued. */
    method Turn(budget: nat, time: nat, ready: bool, ghost s: State) returns (polls: seq<nat>)
      requires Valid() && worker.nodes != [] && |worker.nodes| <= CAP && Reaches(s, View(Draining(budget + 1, time)))
      modifies worker, store
      ensures Reaches(s, View(Draining(budget, time))) && |worker.nodes| <= CAP && store.nextId == old(store.nextId)
      ensures Pass(worker.nodes, store.slots) == TurnSpec(Pass(old(worker.nodes), old(store.slots)), base, time, ready)
      ensures polls == TurnPolls(Pass(old(worker.nodes), old(store.slots)), time)
    {
      hide Reaches, PollSpec, Asks;
      ghost var rest := Others();
      CoreMoves(s, Core(worker.nodes, Draining(budget + 1, time), base), rest, store.slots, store.nextId, Pop(0));
      var task := worker.Pop();
      assert Others() == rest;
      var done, after, asked := PollOne(task.value, budget, time, ready, s);
      polls := if asked then [task.value.id] else [];
      if !done {
        ghost var core := Core(worker.nodes, Returning(budget, time, after), base);
        CoreMoves(s, core, rest, store.slots, store.nextId, PushBack(0));
        var _ := worker.Push(after);
        assert Others() == rest;
      }
    }

    ghost function Sources(): (r: seq<seq<Node>>)
      reads (set x | x in stealers)
      ensures |r| == |stealers| && forall i :: 0 <= i < |r| ==> r[i] == stealers[i].nodes
    {
      seq(|stealers|, i requires 0 <= i < |stealers| reads (set x | x in stealers) => stealers[i].nodes)
    }

    /** One batch from the front of a sibling's queue to the back of ours. */
    method StealFrom(j: nat, time: nat, ghost s: State)
      requires Valid() && j < |stealers| && |worker.nodes| <= CAP && Reaches(s, View(Stealing(time)))
      modifies worker, stealers[j]
      ensures Reaches(s, View(Stealing(time))) && |worker.nodes| <= CAP
      ensures var q, src := old(worker.nodes), old(stealers[j].nodes);
        var k := Batch(|src|, |q|);
        && k <= 4 && k <= |src| && |q| + k <= CAP && (k == 4 || k == |src| || |q| + k == CAP)
        && worker.nodes == q + src[..k] && stealers[j].nodes == src[k..]
    {
      hide Reaches;
      ghost var rest := Others();
      var victim := stealers[j];
      var count := Batch(|victim.nodes|, |worker.nodes|);
      CoreSteals(s, Core(worker.nodes, Stealing(time), base), rest, store.slots, store.nextId, j, count);
      worker.nodes := worker.nodes + victim.nodes[..count];
      victim.nodes := victim.nodes[count..];
      assert Others() == rest[j := rest[j].(queue := rest[j].queue[count..])];
    }

    /** One scheduling pass: a batch from every sibling, then at most `CAP` turns. */
    method RunStep(time: nat, ready: nat -> bool) returns (polls: seq<nat>)
      requires Valid() && |worker.nodes| <= CAP && time < WORD64
      modifies worker, store, set x | x in stealers
      ensures Reaches(old(View(Idle)), View(Idle)) && |worker.nodes| <= CAP && store.nextId == old(store.nextId)
      ensures var q, srcs := old(worker.nodes), old(Sources());
        && var p := Pass(Gathered(q, srcs, |srcs|), old(store.slots));
        && Pass(worker.nodes, store.slots) == PassSpec(p, base, time, ready, CAP)
        && polls == PassPolls(p, base, time, ready, CAP)
        && forall i :: 0 <= i < |srcs| ==> stealers[i].nodes == Left(q, srcs, i)
      ensures var q, srcs := old(worker.nodes), old(Sources());
        |q| + 4 * |srcs| <= CAP ==>
          var p := Pass(q + Heads(srcs, |srcs|), old(store.slots));
          && Pass(worker.nodes, store.slots) == PassSpec(p, base, time, ready, CAP)
          && polls == PassPolls(p, base, time, ready, CAP)
          && forall i :: 0 <= i < |srcs| ==>
               stealers[i].nodes == srcs[i][if |srcs[i]| < 4 then |srcs[i]| else 4..]
    {
      hide *;
      ghost var q, srcs := worker.nodes, Sources();
      polls := StealAndDrain(time, ready);
      if |q| + 4 * |srcs| <= CAP { EachGivesABatch(q, srcs, |srcs|); }
    }

    method StealAndDrain(time: nat, ready: nat -> bool) returns (polls: seq<nat>)
      requires Valid() && |worker.nodes| <= CAP && time < WORD64
      modifies worker, store, set x | x in stealers
      ensures Reaches(old(View(Idle)), View(Idle)) && |worker.nodes| <= CAP && store.nextId == old(store.nextId)
      ensures var q, srcs := old(worker.nodes), old(Sources());
        && var p := Pass(Gathered(q, srcs, |srcs|), old(store.slots));
        && Pass(worker.nodes, store.slots) == PassSpec(p, base, time, ready, CAP)
        && polls == PassPolls(p, base, time, ready, CAP)
        && forall i :: 0 <= i < |srcs| ==> stealers[i].nodes == Left(q, srcs, i)
    {
      hide Reaches, Gathered, Left, PassSpec, PassPolls;
      ghost var s := View(Idle);
      ReachesSelf(s);
      CoreMoves(s, Core(worker.nodes, Idle, base), Others(), store.slots, store.nextId, Begin(0, time));
      Steals(time, s);
      CoreMoves(s, Core(worker.nodes, Stealing(time), base), Others(), store.slots, store.nextId, Drain(0));
      polls := Turns(time, ready, s);
    }

    /** The steal loop. */
    method Steals(time: nat, ghost s: State)
      requires Valid() && |worker.nodes| <= CAP && Reaches(s, View(Stealing(time)))
      modifies worker, set x | x in stealers
      ensures Reaches(s, View(Stealing(time))) && |worker.nodes| <= CAP
      ensures var q, srcs := old(worker.nodes), old(Sources());
        && worker.nodes == Gathered(q, srcs, |srcs|)
        && forall i :: 0 <= i < |srcs| ==> stealers[i].nodes == Left(q, srcs, i)
    {
      hide Reaches, View, Gathered, Left, Batch;
      ghost var q, srcs := worker.nodes, Sources();
      GatheredStep(q, srcs, 0);
      var i := 0;
      while i < |stealers|
        invariant 0 <= i <= |stealers| && |worker.nodes| <= CAP && Reaches(s, View(Stealing(time)))
        invariant worker.nodes == Gathered(q, srcs, i)
        invariant forall k :: 0 <= k < i ==> stealers[k].nodes == Left(q, srcs, k)
        invariant forall k :: i <= k < |stealers| ==> stealers[k].nodes == srcs[k]
      {
        GatheredStep(q, srcs, i);
        StealFrom(i, time, s);
        i := i + 1;
      }
    }

    /** The pop loop. */
    method Turns(time: nat, ready: nat -> bool, ghost s: State) returns (polls: seq<nat>)
      requires Valid() && |worker.nodes| <= CAP && Reaches(s, View(Draining(CAP, time)))
      modifies worker, store
      ensures Reaches(s, View(Idle)) && |worker.nodes| <= CAP && store.nextId == old(store.nextId)
      ensures Pass(worker.nodes, store.slots)
           == PassSpec(Pass(old(worker.nodes), old(store.slots)), base, time, ready, CAP)
      ensures polls == PassPolls(Pass(old(worker.nodes), old(store.slots)), base, time, ready, CAP)
    {
      hide Reaches, TurnSpec, TurnPolls, PassSpec, PassPolls;
      var budget: nat := CAP;
      polls := [];
      while budget > 0 && worker.nodes != []
        invariant |worker.nodes| <= CAP && store.nextId == old(store.nextId) && Reaches(s, View(Draining(budget, time)))
        invariant PassSpec(Pass(worker.nodes, store.slots), base, time, ready, budget)
               == PassSpec(Pass(old(worker.nodes), old(store.slots)), base, time, ready, CAP)
        invariant polls + PassPolls(Pass(worker.nodes, store.slots), base, time, ready, budget)
               == PassPolls(Pass(old(worker.nodes), old(store.slots)), base, time, ready, CAP)
      {
        PassUnfolds(Pass(worker.nodes, store.slots), base, time, ready, budget);
        budget := budget - 1;
        var asked := Turn(budget, time, ready(budget), s);
        polls := polls + asked;
      }
      PassUnfolds(Pass(worker.nodes, store.slots), base, time, ready, budget);
      CoreMoves(s, Core(worker.nodes, Draining(budget, time), base), Others(), store.slots, store.nextId, Pop(0));
    }
  }

  // ----- many passes -----

  const NEVER: nat -> bool := _ => false

  /** Passes at `times`, with every future that is asked still pending. */
  function Passes(p: Pass, base: nat, times: seq<nat>): Pass
    decreases |times|
  {
    if times == [] then p else Passes(PassSpec(p, base, times[0], NEVER, CAP), base, times[1..])
  }

  function PassesPolls(p: Pass, base: nat, times: seq<nat>): seq<nat>
    decreases |times|
  {
    if times == [] then []
    else
      PassPolls(p, base, times[0], NEVER, CAP)
      + PassesPolls(PassSpec(p, base, times[0], NEVER, CAP), base, times[1..])
  }

  lemma OnePendingPass(p: Pass, base: nat, time: nat)
    requires p.queue != [] && Runs(p.reg, p.queue[|p.queue| - 1].id)
    requires !HasNode(p.queue[..|p.queue| - 1], p.queue[|p.queue| - 1].id)
    ensures OnlyBackMoved(p, PassSpec(p, base, time, NEVER, CAP))
    ensures var n := p.queue[|p.queue| - 1];
      && (forall id :: id in PassPolls(p, base, time, NEVER, CAP) ==> id == n.id)
      && (n.next <= time ==> n.id in PassPolls(p, base, time, NEVER, CAP))
  {
    hide Runs, PassSpec, PassPolls, HasNode;
    TheBackNodeIsPolledExactly(p, base, time, NEVER, CAP);
    PassGetsPastItsBackNodeExactly(p, base, time, NEVER, CAP);
  }

  /** A pending back node takes all passes: it is polled, from when it is due, and no
      other node is polled or moved. */
  lemma {:induction false} APendingBackNodeTakesAllPasses(p: Pass, base: nat, times: seq<nat>)
    requires p.queue != [] && Runs(p.reg, p.queue[|p.queue| - 1].id)
    requires !HasNode(p.queue[..|p.queue| - 1], p.queue[|p.queue| - 1].id)
    ensures OnlyBackMoved(p, Passes(p, base, times))
    ensures var n := p.queue[|p.queue| - 1];
      && (forall id :: id in PassesPolls(p, base, times) ==> id == n.id)
      && (times != [] && n.next <= times[0] ==> n.id in PassesPolls(p, base, times))
    decreases |times|
  {
    hide Runs, PassSpec, PassPolls, HasNode;
    if times != [] {
      OnePendingPass(p, base, times[0]);
      APendingBackNodeTakesAllPasses(PassSpec(p, base, times[0], NEVER, CAP), base, times[1..]);
    }
  }

  /** Two tasks of 100 Hz on a clock of 1000 Hz, the one with id 1 spawned first. */
  const TWO := Pass([Node(1, 10, 0), Node(2, 10, 0)], [Slot(1, true, false, 100), Slot(2, true, false, 100)])

  lemma TwoSpawned()
    ensures Inserted(Inserted([], 1, 100), 2, 100) == TWO.reg
  {
    var one := Inserted([], 1, 100);
    assert one == [Slot(1, true, false, 100)];
    FindIs(one, Dead, 1);
  }

  lemma TheNewerRuns()
    ensures Runs(TWO.reg, 2) && !HasNode(TWO.queue[..1], 2)
  {
    LookupAt(TWO.reg, 1);
  }

  method SpawnTwo() returns (e: Executor)
    ensures e.Valid() && e.stealers == [] && e.base == 1000 && fresh(e.worker) && fresh(e.store)
    ensures Pass(e.worker.nodes, e.store.slots) == TWO
  {
    var store := new Store();
    var worker := new Worker();
    e := new Executor(store, worker, [], 1000);
    hide Reaches, Inserted, Retired;
    var _ := e.Spawn(100);
    var _ := e.Spawn(100);
    TwoSpawned();
  }

  /** Passes of a lone executor, with every future that is asked still pending. */
  method RunPasses(e: Executor, times: seq<nat>) returns (polls: seq<nat>)
    requires e.Valid() && e.stealers == [] && |e.worker.nodes| <= CAP
    requires forall i :: 0 <= i < |times| ==> times[i] < WORD64
    modifies e.worker, e.store
    ensures var p := Pass(old(e.worker.nodes), old(e.store.slots));
      && Pass(e.worker.nodes, e.store.slots) == Passes(p, e.base, times)
      && polls == PassesPolls(p, e.base, times)
  {
    hide PassSpec, PassPolls, Reaches;
    polls := [];
    ghost var p := Pass(e.worker.nodes, e.store.slots);
    for i := 0 to |times|
      invariant |e.worker.nodes| <= CAP
      invariant Passes(Pass(e.worker.nodes, e.store.slots), e.base, times[i..]) == Passes(p, e.base, times)
      invariant polls + PassesPolls(Pass(e.worker.nodes, e.store.slots), e.base, times[i..])
             == PassesPolls(p, e.base, times)
    {
      assert times[i..][1..] == times[i + 1..];
      var asked := e.RunStep(times[i], NEVER);
      polls := polls + asked;
    }
  }

  /** The two are spawned and then any number of scheduling passes run at any times,
      with the newer task always pending: the older one, due from the start, is
      never polled. */
  method TheNewerTaskTakesEveryPass(times: seq<nat>) returns (nodes: seq<Node>, polls: seq<nat>)
    requires forall i :: 0 <= i < |times| ==> times[i] < WORD64
    ensures nodes == Passes(TWO, 1000, times).queue && polls == PassesPolls(TWO, 1000, times)
    ensures |nodes| == 2 && nodes[0] == Node(1, 10, 0) && nodes[1].id == 2
    ensures 1 !in polls && (times != [] ==> 2 in polls)
  {
    hide Passes, PassesPolls, Runs;
    TheNewerRuns();
    APendingBackNodeTakesAllPasses(TWO, 1000, times);
    var e := SpawnTwo();
    polls := RunPasses(e, times);
    nodes := e.worker.nodes;
    assert nodes[..1][0] == TWO.queue[..1][0];
  }
}
