/** The dynamic executor on any number of cores, one step per queue operation,
    registry critical section or poll. */
module DynamicMachine {
  import opened Clock
  import opened Options
  import opened Registry
  import opened BagSums

  const CAP := 64
  const BATCH := 4

  datatype Node = Node(id: nat, interval: nat, next: nat)

  /** Where a core is.  `Fetched` to `Refused` are inside `spawn`, the rest inside
      `run_step`; `Finished` polled a task to completion and has yet to retire it. */
  datatype Ctl =
    | Idle
    | Fetched(id: nat, freq: nat)
    | Spawning(node: Node)
    | Refused(id: nat)
    | Stealing(time: nat)
    | Draining(budget: nat, time: nat)
    | Holding(budget: nat, time: nat, node: Node)
    | Due(budget: nat, time: nat, node: Node)
    | Finished(budget: nat, time: nat, id: nat)
    | Returning(budget: nat, time: nat, node: Node)

  /** A core's queue, oldest node first, and its tick frequency. */
  datatype Core = Core(queue: seq<Node>, ctl: Ctl, base: nat)

  datatype State = State(cores: seq<Core>, reg: seq<Slot>, nextId: nat)

  datatype Act =
    | Fetch(c: nat, freq: nat)
    | Register(c: nat)
    | PushNew(c: nat)
    | GiveUp(c: nat)
    | Begin(c: nat, time: nat)
    | Steal(c: nat, victim: nat, count: nat)
    | Drain(c: nat)
    | Pop(c: nat)
    | Sync(c: nat)
    | Poll(c: nat, ready: bool)
    | Reap(c: nat)
    | PushBack(c: nat)
    | Cancel(id: nat)
    | Retune(id: nat, freq: nat)

  predicate Init(s: State) {
    s.reg == [] && s.nextId == 1 && forall c :: 0 <= c < |s.cores| ==> s.cores[c].queue == [] && s.cores[c].ctl == Idle
  }

  predicate Enabled(s: State, a: Act) {
    match a
    case Cancel(_) => true
    case Retune(_, _) => true
    case Steal(c, victim, count) =>
      && c < |s.cores| && victim < |s.cores| && c != victim && s.cores[c].ctl.Stealing?
      && count <= BATCH && count <= |s.cores[victim].queue| && |s.cores[c].queue| + count <= CAP
    case _ => a.c < |s.cores| && CoreEnabled(s.cores[a.c].ctl, a)
  }

  predicate CoreEnabled(ctl: Ctl, a: Act) {
    match a
    case Fetch(_, _) => ctl.Idle?
    case Register(_) => ctl.Fetched?
    case PushNew(_) => ctl.Spawning?
    case GiveUp(_) => ctl.Refused?
    case Begin(_, time) => ctl.Idle? && time < WORD64
    case Drain(_) => ctl.Stealing?
    case Pop(_) => ctl.Draining?
    case Sync(_) => ctl.Holding?
    case Poll(_, _) => ctl.Due?
    case Reap(_) => ctl.Finished?
    case PushBack(_) => ctl.Returning?
    case _ => false
  }

  function Next(s: State, a: Act): State
    requires Enabled(s, a)
  {
    match a
    case Cancel(id) => s.(reg := Cancelled(s.reg, id))
    case Retune(id, freq) => s.(reg := Retuned(s.reg, id, freq))
    case Steal(c, victim, count) =>
      var q := s.cores[victim].queue;
      s.(cores := s.cores[c := s.cores[c].(queue := s.cores[c].queue + q[..count])]
                         [victim := s.cores[victim].(queue := q[count..])])
    case _ =>
      State(s.cores[a.c := CoreNext(s.cores[a.c], s.reg, s.nextId, a)], RegNext(s.cores[a.c].ctl, s.reg, a),
        if a.Fetch? then s.nextId + 1 else s.nextId)
  }

  /** What a step of a core does to the registry. */
  function RegNext(ctl: Ctl, reg: seq<Slot>, a: Act): seq<Slot>
    requires CoreEnabled(ctl, a)
  {
    match a
    case Register(_) => Inserted(reg, ctl.id, ctl.freq)
    case GiveUp(_) => Retired(reg, ctl.id)
    case Reap(_) => Retired(reg, ctl.id)
    case Sync(_) => Synced(reg, ctl.node.id)
    case _ => reg
  }

  /** What a step of a core does to that core. */
  function CoreNext(k: Core, reg: seq<Slot>, nextId: nat, a: Act): Core
    requires CoreEnabled(k.ctl, a)
  {
    var q := k.queue;
    match a
    case Fetch(_, freq) => k.(ctl := Fetched(nextId, freq))
    case Register(_) => k.(ctl := Spawning(Node(k.ctl.id, Ticks(k.ctl.freq, k.base), 0)))
    case PushNew(_) =>
      if |q| < CAP then k.(queue := q + [k.ctl.node], ctl := Idle) else k.(ctl := Refused(k.ctl.node.id))
    case GiveUp(_) => k.(ctl := Idle)
    case Begin(_, time) => k.(ctl := Stealing(time))
    case Drain(_) => k.(ctl := Draining(CAP, k.ctl.time))
    case Pop(_) =>
      if k.ctl.budget == 0 || q == [] then k.(ctl := Idle)
      else k.(queue := q[..|q| - 1], ctl := Holding(k.ctl.budget - 1, k.ctl.time, q[|q| - 1]))
    case Sync(_) => k.(ctl := AfterSync(k.ctl, Lookup(reg, k.ctl.node.id), k.base))
    case Poll(_, ready) =>
      var n := k.ctl.node;
      k.(ctl := if ready then Finished(k.ctl.budget, k.ctl.time, n.id)
                else Returning(k.ctl.budget, k.ctl.time, n.(next := (k.ctl.time + n.interval) % WORD64)))
    case Reap(_) => k.(ctl := Draining(k.ctl.budget, k.ctl.time))
    case PushBack(_) =>
      k.(queue := if |q| < CAP then q + [k.ctl.node] else q, ctl := Draining(k.ctl.budget, k.ctl.time))
  }

  /** A node whose slot is gone or cancelled is dropped, whether it is due or not. */
  function AfterSync(ctl: Ctl, info: Option<Info>, base: nat): Ctl
    requires ctl.Holding?
  {
    if info.None? || info.value.cancelled then Draining(ctl.budget, ctl.time)
    else if ctl.time < ctl.node.next then Returning(ctl.budget, ctl.time, ctl.node)
    else Due(ctl.budget, ctl.time, ctl.node.(interval := Ticks(info.value.freq, base)))
  }

  // ----- where a node is -----

  function Ids(q: seq<Node>): (ids: seq<nat>)
    ensures |ids| == |q| && forall i :: 0 <= i < |q| ==> ids[i] == q[i].id
  {
    seq(|q|, i requires 0 <= i < |q| => q[i].id)
  }

  function HandBag(ctl: Ctl): multiset<nat> {
    match ctl
    case Spawning(n) => multiset{n.id}
    case Refused(id) => multiset{id}
    case Holding(_, _, n) => multiset{n.id}
    case Due(_, _, n) => multiset{n.id}
    case Finished(_, _, id) => multiset{id}
    case Returning(_, _, n) => multiset{n.id}
    case _ => multiset{}
  }

  function CoreBag(k: Core): multiset<nat> {
    multiset(Ids(k.queue)) + HandBag(k.ctl)
  }

  function CoreBags(cores: seq<Core>): (b: seq<multiset<nat>>)
    ensures |b| == |cores|
  {
    seq(|cores|, i requires 0 <= i < |cores| => CoreBag(cores[i]))
  }

  /** The ids of all nodes: in a queue, in a hand, or between the two ends of a spawn. */
  function Placed(cores: seq<Core>): multiset<nat> {
    Sum(CoreBags(cores))
  }

  // ----- the invariant -----

  predicate Agrees(s: State) {
    AliveBag(s.reg) == Placed(s.cores)
  }

  /** Room for the node in hand is left in the queue it came from. */
  predicate HasRoom(k: Core) {
    |k.queue| + (if k.ctl.Holding? || k.ctl.Due? || k.ctl.Returning? then 1 else 0) <= CAP
  }

  predicate IdsOk(s: State) {
    && Distinct(s.reg)
    && (forall i :: 0 <= i < |s.reg| ==> s.reg[i].id < s.nextId)
  }

  /** An id fetched but not yet registered is nobody else's. */
  predicate FetchedOk(s: State) {
    && (forall c :: 0 <= c < |s.cores| && s.cores[c].ctl.Fetched? ==>
          s.cores[c].ctl.id < s.nextId && Unused(s.reg, s.cores[c].ctl.id))
    && (forall c, d :: 0 <= c < d < |s.cores| && s.cores[c].ctl.Fetched? && s.cores[d].ctl.Fetched? ==>
          s.cores[c].ctl.id != s.cores[d].ctl.id)
  }

  predicate RoomOk(s: State) {
    forall c :: 0 <= c < |s.cores| ==> HasRoom(s.cores[c])
  }

  predicate Inv(s: State) {
    IdsOk(s) && FetchedOk(s) && Agrees(s) && RoomOk(s)
  }

  lemma InitInv(s: State)
    requires Init(s)
    ensures Inv(s)
  {
    SumOfEmpty(CoreBags(s.cores));
  }

  // ----- each step keeps it -----

  lemma PlacedChanges(cores: seq<Core>, c: nat, k: Core)
    requires c < |cores|
    ensures Placed(cores[c := k]) + CoreBag(cores[c]) == Placed(cores) + CoreBag(k)
  {
    assert CoreBags(cores[c := k]) == CoreBags(cores)[c := CoreBag(k)];
    SumUpdate(CoreBags(cores), c, CoreBag(k));
  }

  lemma PlacedContains(cores: seq<Core>, c: nat)
    requires c < |cores|
    ensures CoreBag(cores[c]) <= Placed(cores)
  {
    SumContains(CoreBags(cores), c);
  }

  lemma IdsSplit(q: seq<Node>, k: nat)
    requires k <= |q|
    ensures multiset(Ids(q[..k])) + multiset(Ids(q[k..])) == multiset(Ids(q))
  {
    assert Ids(q[..k]) == Ids(q)[..k] && Ids(q[k..]) == Ids(q)[k..];
    SplitBag(Ids(q), k);
  }

  lemma IdsJoin(q: seq<Node>, p: seq<Node>)
    ensures multiset(Ids(q + p)) == multiset(Ids(q)) + multiset(Ids(p))
  {
    assert Ids(q + p) == Ids(q) + Ids(p);
  }

  lemma IdsOne(n: Node)
    ensures multiset(Ids([n])) == multiset{n.id}
  {
    assert Ids([n]) == [n.id];
  }

  lemma StealAgrees(s: State, c: nat, victim: nat, count: nat)
    requires Agrees(s) && Enabled(s, Steal(c, victim, count))
    ensures Agrees(Next(s, Steal(c, victim, count)))
  {
    var t := Next(s, Steal(c, victim, count));
    var q := s.cores[victim].queue;
    IdsSplit(q, count);
    IdsJoin(s.cores[c].queue, q[..count]);
    var bags := CoreBags(s.cores);
    assert CoreBags(t.cores) == bags[c := CoreBag(t.cores[c])][victim := CoreBag(t.cores[victim])];
    SumUpdateTwo(bags, c, CoreBag(t.cores[c]), victim, CoreBag(t.cores[victim]));
  }

  predicate OfOneCore(a: Act) { !a.Cancel? && !a.Retune? && !a.Steal? }

  /** A step of one core is made of its two parts. */
  lemma CoreStep(s: State, a: Act)
    requires OfOneCore(a) && Enabled(s, a)
    ensures a.c < |s.cores| && CoreEnabled(s.cores[a.c].ctl, a)
    ensures Next(s, a) == State(s.cores[a.c := CoreNext(s.cores[a.c], s.reg, s.nextId, a)],
      RegNext(s.cores[a.c].ctl, s.reg, a), if a.Fetch? then s.nextId + 1 else s.nextId)
  {
  }

  /** The core's bag and the registry's change by the same `minus` and `plus`. */
  lemma ChangeAgrees(s: State, c: nat, k: Core, reg: seq<Slot>, minus: multiset<nat>, plus: multiset<nat>)
    requires Agrees(s) && c < |s.cores|
    requires AliveBag(reg) + minus == AliveBag(s.reg) + plus
    requires CoreBag(k) + minus == CoreBag(s.cores[c]) + plus
    ensures AliveBag(reg) == Placed(s.cores[c := k])
  {
    PlacedChanges(s.cores, c, k);
    Balance(AliveBag(s.reg), AliveBag(reg), Placed(s.cores[c := k]), CoreBag(s.cores[c]), CoreBag(k), minus, plus);
  }

  lemma Balance(x: multiset<nat>, x': multiset<nat>, y': multiset<nat>, b: multiset<nat>, b': multiset<nat>,
                minus: multiset<nat>, plus: multiset<nat>)
    requires x' + minus == x + plus && b' + minus == b + plus && y' + b == x + b'
    ensures x' == y'
  {
    forall p ensures x'[p] == y'[p] {
      assert (x' + minus)[p] == (x + plus)[p] && (b' + minus)[p] == (b + plus)[p] && (y' + b)[p] == (x + b')[p];
    }
  }

  /** The ids are live exactly once each, wherever their node is. */
  lemma AgreesAt(s: State, id: nat)
    requires IdsOk(s) && Agrees(s)
    ensures Placed(s.cores)[id] == if Lookup(s.reg, id).Some? then 1 else 0
  {
    AliveIsLookup(s.reg, id);
  }

  lemma HandIsLive(s: State, c: nat, id: nat)
    requires IdsOk(s) && Agrees(s) && c < |s.cores| && id in CoreBag(s.cores[c])
    ensures Lookup(s.reg, id).Some?
  {
    PlacedContains(s.cores, c);
    AgreesAt(s, id);
  }

  lemma RetireLive(reg: seq<Slot>, id: nat)
    requires Distinct(reg) && Lookup(reg, id).Some?
    ensures AliveBag(Retired(reg, id)) + multiset{id} == AliveBag(reg)
  {
    RetireAlive(reg, id);
    AliveIsLookup(reg, id);
  }

  lemma SyncAlive(reg: seq<Slot>, id: nat)
    requires Distinct(reg) && Lookup(reg, id).Some?
    ensures var reaped := if Lookup(reg, id).value.cancelled then multiset{id} else multiset{};
      AliveBag(Synced(reg, id)) + reaped == AliveBag(reg)
  {
    forall x ensures AliveBag(Synced(reg, id))[x] ==
      if x == id && Lookup(reg, id).value.cancelled then 0 else AliveBag(reg)[x]
    {
      SyncReapsTheCancelled(reg, id, x);
      AliveIsLookup(reg, x);
      AliveIsLookup(Synced(reg, id), x);
    }
    AliveIsLookup(reg, id);
  }

  lemma CancelAlive(reg: seq<Slot>, id: nat, freq: nat)
    requires Distinct(reg)
    ensures AliveBag(Cancelled(reg, id)) == AliveBag(reg) == AliveBag(Retuned(reg, id, freq))
  {
    forall x ensures AliveBag(Cancelled(reg, id))[x] == AliveBag(reg)[x] == AliveBag(Retuned(reg, id, freq))[x] {
      CancelMarksOne(reg, id, x);
      SetFreqRetunesOne(reg, id, freq, x);
      AliveIsLookup(reg, x);
      AliveIsLookup(Cancelled(reg, id), x);
      AliveIsLookup(Retuned(reg, id, freq), x);
    }
  }

  lemma PopBag(k: Core, reg: seq<Slot>, n: nat, a: Act)
    requires a.Pop? && CoreEnabled(k.ctl, a)
    ensures CoreBag(CoreNext(k, reg, n, a)) == CoreBag(k)
  {
    var q := k.queue;
    var k' := CoreNext(k, reg, n, a);
    assert HandBag(k.ctl) == multiset{};
    if k.ctl.budget == 0 || q == [] {
      assert k'.queue == q && HandBag(k'.ctl) == multiset{};
    } else {
      var last := q[|q| - 1];
      assert k'.queue == q[..|q| - 1] && HandBag(k'.ctl) == multiset{last.id};
      hide CoreNext, CoreEnabled, HandBag;
      assert q == q[..|q| - 1] + [last];
      PushBag(q[..|q| - 1], last);
    }
  }

  lemma PushBag(q: seq<Node>, n: Node)
    ensures multiset(Ids(q + [n])) == multiset(Ids(q)) + multiset{n.id}
  {
    IdsJoin(q, [n]);
    IdsOne(n);
  }

  predicate Pushes(k: Core, a: Act) { (a.PushNew? || a.PushBack?) && |k.queue| < CAP }

  lemma PushesBag(k: Core, reg: seq<Slot>, n: nat, a: Act)
    requires CoreEnabled(k.ctl, a) && Pushes(k, a)
    ensures CoreBag(CoreNext(k, reg, n, a)) == CoreBag(k) && RegNext(k.ctl, reg, a) == reg
  {
    hide Ids;
    var k' := CoreNext(k, reg, n, a);
    var id := k.ctl.node.id;
    assert HandBag(k.ctl) == multiset{id} && HandBag(k'.ctl) == multiset{};
    assert k'.queue == k.queue + [k.ctl.node];
    hide CoreNext, HandBag, CoreEnabled;
    PushBag(k.queue, k.ctl.node);
  }

  lemma QuietBag(k: Core, reg: seq<Slot>, n: nat, a: Act)
    requires CoreEnabled(k.ctl, a) && !a.Register? && !a.GiveUp? && !a.Reap? && !a.Sync? && !a.Pop?
    requires !Pushes(k, a) && !a.PushBack?
    ensures CoreBag(CoreNext(k, reg, n, a)) == CoreBag(k) && RegNext(k.ctl, reg, a) == reg
  {
    hide Ids;
    var k' := CoreNext(k, reg, n, a);
    assert k'.queue == k.queue;
    assert HandBag(k'.ctl) == HandBag(k.ctl);
    hide CoreNext, HandBag, CoreEnabled;
  }

  /** The core drops the id in its hand, and that is all. */
  lemma DropBag(k: Core, k': Core, id: nat)
    requires k'.queue == k.queue && HandBag(k.ctl) == multiset{id} && HandBag(k'.ctl) == multiset{}
    ensures CoreBag(k) == CoreBag(k') + multiset{id} && id in CoreBag(k)
  {
  }

  lemma QuietAgrees(s: State, a: Act)
    requires Agrees(s) && OfOneCore(a) && Enabled(s, a)
    requires !a.Register? && !a.GiveUp? && !a.Reap? && !a.Sync?
    requires a.PushBack? ==> |s.cores[a.c].queue| < CAP
    ensures Agrees(Next(s, a))
  {
    CoreStep(s, a);
    hide Enabled, Next;
    var k := s.cores[a.c];
    if a.Pop? { PopBag(k, s.reg, s.nextId, a); }
    else if Pushes(k, a) { PushesBag(k, s.reg, s.nextId, a); }
    else { QuietBag(k, s.reg, s.nextId, a); }
    var k' := CoreNext(k, s.reg, s.nextId, a);
    var reg' := RegNext(k.ctl, s.reg, a);
    assert reg' == s.reg;
    hide CoreNext, RegNext, CoreBag;
    ChangeAgrees(s, a.c, k', reg', multiset{}, multiset{});
  }

  lemma RegisterAgrees(s: State, a: Act)
    requires Agrees(s) && a.Register? && Enabled(s, a)
    ensures Agrees(Next(s, a))
  {
    CoreStep(s, a);
    hide Enabled, Next;
    var k := s.cores[a.c];
    InsertAlive(s.reg, k.ctl.id, k.ctl.freq);
    ChangeAgrees(s, a.c, CoreNext(k, s.reg, s.nextId, a), RegNext(k.ctl, s.reg, a), multiset{}, multiset{k.ctl.id});
  }

  lemma RetireStep(k: Core, reg: seq<Slot>, n: nat, a: Act)
    requires (a.GiveUp? || a.Reap?) && CoreEnabled(k.ctl, a)
    ensures RegNext(k.ctl, reg, a) == Retired(reg, k.ctl.id)
    ensures CoreBag(k) == CoreBag(CoreNext(k, reg, n, a)) + multiset{k.ctl.id} && k.ctl.id in CoreBag(k)
  {
    hide Retired, Ids;
    DropBag(k, CoreNext(k, reg, n, a), k.ctl.id);
  }

  lemma RetireAgrees(s: State, a: Act)
    requires IdsOk(s) && Agrees(s) && (a.GiveUp? || a.Reap?) && Enabled(s, a)
    ensures Agrees(Next(s, a))
  {
    CoreStep(s, a);
    hide Enabled, Next, CoreNext, RegNext, CoreBag, CoreEnabled, AliveBag, Placed;
    var k := s.cores[a.c];
    RetireStep(k, s.reg, s.nextId, a);
    HandIsLive(s, a.c, k.ctl.id);
    RetireLive(s.reg, k.ctl.id);
    ChangeAgrees(s, a.c, CoreNext(k, s.reg, s.nextId, a), RegNext(k.ctl, s.reg, a), multiset{k.ctl.id}, multiset{});
  }

  function Reaped(ctl: Ctl, reg: seq<Slot>): multiset<nat>
    requires ctl.Holding?
  {
    var info := Lookup(reg, ctl.node.id);
    if info.Some? && info.value.cancelled then multiset{ctl.node.id} else multiset{}
  }

  lemma SyncStep(k: Core, reg: seq<Slot>, n: nat, a: Act)
    requires a.Sync? && CoreEnabled(k.ctl, a)
    ensures RegNext(k.ctl, reg, a) == Synced(reg, k.ctl.node.id) && k.ctl.node.id in CoreBag(k)
    ensures Lookup(reg, k.ctl.node.id).Some? ==> CoreBag(k) == CoreBag(CoreNext(k, reg, n, a)) + Reaped(k.ctl, reg)
  {
    hide Synced, Lookup, Ids;
    var k' := CoreNext(k, reg, n, a);
    var id := k.ctl.node.id;
    assert k'.queue == k.queue && k'.ctl == AfterSync(k.ctl, Lookup(reg, id), k.base);
    assert HandBag(k.ctl) == multiset{id};
    hide CoreNext;
    if Lookup(reg, id).Some? {
      if Lookup(reg, id).value.cancelled { DropBag(k, k', id); } else { assert HandBag(k'.ctl) == multiset{id}; }
    }
  }

  lemma SyncAgrees(s: State, a: Act)
    requires IdsOk(s) && Agrees(s) && a.Sync? && Enabled(s, a)
    ensures Agrees(Next(s, a))
  {
    CoreStep(s, a);
    hide Enabled, Next, CoreNext, RegNext, CoreBag, AliveBag, Placed;
    var k := s.cores[a.c];
    SyncStep(k, s.reg, s.nextId, a);
    HandIsLive(s, a.c, k.ctl.node.id);
    SyncAlive(s.reg, k.ctl.node.id);
    ChangeAgrees(s, a.c, CoreNext(k, s.reg, s.nextId, a), RegNext(k.ctl, s.reg, a), Reaped(k.ctl, s.reg), multiset{});
  }

  /** A requeue onto a full queue: the node is dropped and the registry not told. */
  lemma PushBackDrops(k: Core, reg: seq<Slot>, n: nat, a: Act)
    requires a.PushBack? && CoreEnabled(k.ctl, a) && |k.queue| >= CAP
    ensures RegNext(k.ctl, reg, a) == reg
    ensures CoreBag(k) == CoreBag(CoreNext(k, reg, n, a)) + multiset{k.ctl.node.id}
  {
    hide Ids;
    DropBag(k, CoreNext(k, reg, n, a), k.ctl.node.id);
  }

  lemma OneFewer(x: multiset<nat>, y: multiset<nat>, b: multiset<nat>, id: nat)
    requires y + (b + multiset{id}) == x + b
    ensures y != x
  {
    assert (y + (b + multiset{id}))[id] == (x + b)[id];
  }

  /** The requeue, whose result is ignored, keeps the registry right exactly when
      there is room: a node that does not fit is dropped with its slot still live. */
  lemma PushBackKeepsExactly(s: State, a: Act)
    requires Agrees(s) && a.PushBack? && Enabled(s, a)
    ensures Agrees(Next(s, a)) <==> |s.cores[a.c].queue| < CAP
  {
    hide Enabled, Next, CoreNext, RegNext, CoreBag, CoreEnabled, Placed, AliveBag;
    CoreStep(s, a);
    var k := s.cores[a.c];
    if |k.queue| < CAP {
      QuietAgrees(s, a);
    } else {
      var k' := CoreNext(k, s.reg, s.nextId, a);
      PushBackDrops(k, s.reg, s.nextId, a);
      PlacedChanges(s.cores, a.c, k');
      OneFewer(Placed(s.cores), Placed(s.cores[a.c := k']), CoreBag(k'), k.ctl.node.id);
    }
  }

  lemma RestAgrees(s: State, a: Act)
    requires Agrees(s) && RoomOk(s) && OfOneCore(a) && Enabled(s, a)
    requires !a.Register? && !a.GiveUp? && !a.Reap? && !a.Sync?
    ensures Agrees(Next(s, a))
  {
    CoreStep(s, a);
    assert HasRoom(s.cores[a.c]);
    hide Next, Enabled, Agrees, RoomOk;
    QuietAgrees(s, a);
  }

  lemma RetuneAgrees(s: State, a: Act)
    requires IdsOk(s) && Agrees(s) && (a.Cancel? || a.Retune?)
    ensures Agrees(Next(s, a))
  {
    hide AliveBag, Placed, Cancelled, Retuned;
    match a
    case Cancel(id) => CancelAlive(s.reg, id, 0);
    case Retune(id, freq) => CancelAlive(s.reg, id, freq);
  }

  lemma StepAgrees(s: State, a: Act)
    requires Inv(s) && Enabled(s, a)
    ensures Agrees(Next(s, a))
  {
    hide Next, Agrees, IdsOk, FetchedOk, RoomOk, Enabled;
    match a
    case Cancel(_) => RetuneAgrees(s, a);
    case Retune(_, _) => RetuneAgrees(s, a);
    case Steal(c, victim, count) => StealAgrees(s, c, victim, count);
    case Register(_) => RegisterAgrees(s, a);
    case GiveUp(_) => RetireAgrees(s, a);
    case Reap(_) => RetireAgrees(s, a);
    case Sync(_) => SyncAgrees(s, a);
    case _ => RestAgrees(s, a);
  }

  lemma StepRoom(s: State, a: Act)
    requires RoomOk(s) && Enabled(s, a)
    ensures RoomOk(Next(s, a))
  {
    var t := Next(s, a);
    forall d | 0 <= d < |t.cores| ensures HasRoom(t.cores[d]) { assert HasRoom(s.cores[d]); }
  }

  /** The registry's ids after a step are the old ones and, at `Register`, the fetched one. */
  lemma RegIds(ctl: Ctl, reg: seq<Slot>, a: Act, nextId: nat)
    requires CoreEnabled(ctl, a) && Distinct(reg) && (a.Register? ==> Unused(reg, ctl.id) && ctl.id < nextId)
    requires forall i :: 0 <= i < |reg| ==> reg[i].id < nextId
    ensures var r := RegNext(ctl, reg, a);
      && Distinct(r) && (forall i :: 0 <= i < |r| ==> r[i].id < nextId)
      && (forall id :: Unused(reg, id) && !(a.Register? && ctl.id == id) ==> Unused(r, id))
  {
    if a.Register? { InsertAddsOne(reg, ctl.id, ctl.freq, 0); }
  }

  lemma StepIds(s: State, a: Act)
    requires IdsOk(s) && FetchedOk(s) && Enabled(s, a)
    ensures IdsOk(Next(s, a))
    ensures forall id :: Unused(s.reg, id) && !(a.Register? && s.cores[a.c].ctl.id == id) ==> Unused(Next(s, a).reg, id)
  {
    if OfOneCore(a) {
      CoreStep(s, a);
      hide Next, Enabled;
      RegIds(s.cores[a.c].ctl, s.reg, a, s.nextId);
    }
  }

  lemma CoreFetched(s: State, a: Act)
    requires IdsOk(s) && FetchedOk(s) && OfOneCore(a) && Enabled(s, a)
    ensures FetchedOk(Next(s, a))
  {
    StepIds(s, a);
    CoreStep(s, a);
    var t := Next(s, a);
    assert t.cores[a.c].ctl.Fetched? ==> a.Fetch? && t.cores[a.c].ctl.id == s.nextId;
    hide Next, Enabled, CoreNext, RegNext, CoreEnabled, Distinct;
    assert a.Fetch? ==> Unused(s.reg, s.nextId);
    forall c | 0 <= c < |t.cores| && t.cores[c].ctl.Fetched?
      ensures t.cores[c].ctl.id < t.nextId && Unused(t.reg, t.cores[c].ctl.id)
    {
      if c != a.c { assert t.cores[c] == s.cores[c]; }
    }
  }

  lemma StepFetched(s: State, a: Act)
    requires IdsOk(s) && FetchedOk(s) && Enabled(s, a)
    ensures FetchedOk(Next(s, a))
  {
    if OfOneCore(a) {
      hide IdsOk, FetchedOk;
      CoreFetched(s, a);
    } else {
      StepIds(s, a);
      var t := Next(s, a);
      forall c | 0 <= c < |t.cores| ensures t.cores[c].ctl == s.cores[c].ctl { }
    }
  }

  lemma StepKeeps(s: State, a: Act)
    requires Inv(s) && Enabled(s, a)
    ensures Inv(Next(s, a))
  {
    StepIds(s, a);
    StepFetched(s, a);
    StepAgrees(s, a);
    StepRoom(s, a);
  }
}
