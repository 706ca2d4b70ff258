/** The theorems about whole runs of the dynamic executor. */
module DynamicRuns {
  import opened Clock
  import opened Options
  import opened Registry
  import opened BagSums
  import opened DynamicMachine
  import opened RateBound

  predicate Legal(s: State, acts: seq<Act>)
    decreases |acts|
  {
    acts == [] || (Enabled(s, acts[0]) && Legal(Next(s, acts[0]), acts[1..]))
  }

  function After(s: State, acts: seq<Act>): State
    requires Legal(s, acts)
    decreases |acts|
  {
    if acts == [] then s else After(Next(s, acts[0]), acts[1..])
  }

  lemma {:induction false} RunKeeps(s: State, acts: seq<Act>)
    requires Inv(s) && Legal(s, acts)
    ensures Inv(After(s, acts))
    decreases |acts|
  {
    if acts != [] {
      StepKeeps(s, acts[0]);
      RunKeeps(Next(s, acts[0]), acts[1..]);
    }
  }

  // ----- registry and nodes -----

  /** In every reachable state an id is live exactly if one node carries it,
      queued, in a hand or being spawned; no second node ever does. */
  lemma LiveIdsAreThePlacedNodes(s: State, acts: seq<Act>, id: nat)
    requires Init(s) && Legal(s, acts)
    ensures var t := After(s, acts);
      Placed(t.cores)[id] == (if Lookup(t.reg, id).Some? then 1 else 0) && Distinct(t.reg)
  {
    InitInv(s);
    RunKeeps(s, acts);
    AgreesAt(After(s, acts), id);
  }

  lemma HeldIsLive(s: State, c: nat)
    requires Inv(s) && c < |s.cores| && s.cores[c].ctl.Holding?
    ensures Lookup(s.reg, s.cores[c].ctl.node.id).Some?
  {
    hide IdsOk, FetchedOk, RoomOk, Agrees, Lookup;
    NodeInHand(s.cores[c]);
    hide CoreBag;
    HandIsLive(s, c, s.cores[c].ctl.node.id);
  }

  /** A popped node always finds its slot. */
  lemma SlotIsNeverGone(s: State, acts: seq<Act>, c: nat)
    requires Init(s) && Legal(s, acts)
    requires var t := After(s, acts); c < |t.cores| && t.cores[c].ctl.Holding?
    ensures var t := After(s, acts); Lookup(t.reg, t.cores[c].ctl.node.id).Some?
  {
    InitInv(s);
    RunKeeps(s, acts);
    HeldIsLive(After(s, acts), c);
  }

  /** The requeue, whose result is ignored, always finds room, whatever is stolen
      meanwhile. */
  lemma RequeueNeverFails(s: State, acts: seq<Act>, c: nat)
    requires Init(s) && Legal(s, acts)
    requires var t := After(s, acts); c < |t.cores| && t.cores[c].ctl.Returning?
    ensures |After(s, acts).cores[c].queue| < CAP
  {
    InitInv(s);
    RunKeeps(s, acts);
    assert HasRoom(After(s, acts).cores[c]);
  }

  // ----- the size of the registry -----

  function Max(x: nat, y: nat): nat { if x < y then y else x }

  /** The most ids alive at once in any state of a run. */
  function PeakAlive(s: State, acts: seq<Act>): nat
    requires Legal(s, acts)
    decreases |acts|
  {
    if acts == [] then |AliveBag(s.reg)|
    else Max(|AliveBag(s.reg)|, PeakAlive(Next(s, acts[0]), acts[1..]))
  }

  lemma InsertGrows(reg: seq<Slot>, id: nat, freq: nat)
    ensures |Inserted(reg, id, freq)| == Max(|reg|, |AliveBag(Inserted(reg, id, freq))|)
  {
    AliveCount(reg);
    AliveCount(Inserted(reg, id, freq));
    InsertAlive(reg, id, freq);
  }

  lemma StepGrows(s: State, a: Act)
    requires Inv(s) && Enabled(s, a)
    ensures |Next(s, a).reg| == Max(|s.reg|, |AliveBag(Next(s, a).reg)|)
  {
    hide AliveBag, Inv, IdsOk, FetchedOk, Agrees, RoomOk;
    if OfOneCore(a) {
      CoreStep(s, a);
      hide Next, Enabled;
      CoreGrows(s.cores[a.c].ctl, s.reg, a);
    } else {
      AliveCount(Next(s, a).reg);
      assert |Next(s, a).reg| == |s.reg|;
    }
  }

  lemma CoreGrows(ctl: Ctl, reg: seq<Slot>, a: Act)
    requires CoreEnabled(ctl, a)
    ensures |RegNext(ctl, reg, a)| == Max(|reg|, |AliveBag(RegNext(ctl, reg, a))|)
  {
    if a.Register? {
      InsertGrows(reg, ctl.id, ctl.freq);
    } else {
      SameLength(ctl, reg, a);
      hide RegNext, CoreEnabled;
      AliveCount(RegNext(ctl, reg, a));
    }
  }

  lemma SameLength(ctl: Ctl, reg: seq<Slot>, a: Act)
    requires CoreEnabled(ctl, a) && !a.Register?
    ensures |RegNext(ctl, reg, a)| == |reg|
  {
  }

  lemma {:induction false} RunGrows(s: State, acts: seq<Act>)
    requires Inv(s) && Legal(s, acts)
    ensures |After(s, acts).reg| == Max(|s.reg|, PeakAlive(s, acts))
    decreases |acts|
  {
    AliveCount(s.reg);
    if acts != [] {
      StepGrows(s, acts[0]);
      StepKeeps(s, acts[0]);
      var t := Next(s, acts[0]);
      AliveCount(t.reg);
      RunGrows(t, acts[1..]);
      PeakAtLeast(t, acts[1..]);
    }
  }

  lemma PeakAtLeast(s: State, acts: seq<Act>)
    requires Legal(s, acts)
    ensures |AliveBag(s.reg)| <= PeakAlive(s, acts)
  {
  }

  /** The registry is as long as the most ids that were ever alive at once. */
  lemma RegistryLengthIsThePeak(s: State, acts: seq<Act>)
    requires Init(s) && Legal(s, acts)
    ensures |After(s, acts).reg| == PeakAlive(s, acts)
  {
    InitInv(s);
    RunGrows(s, acts);
  }

  // ----- cancellation -----

  /** The id was handed out, and its slot has been inserted. */
  predicate Issued(s: State, id: nat) {
    id < s.nextId && forall c :: 0 <= c < |s.cores| && s.cores[c].ctl.Fetched? ==> s.cores[c].ctl.id != id
  }

  predicate Gone(s: State, id: nat) {
    Issued(s, id) && Lookup(s.reg, id).None?
  }

  predicate Doomed(s: State, id: nat) {
    Issued(s, id) && (Lookup(s.reg, id).Some? ==> Lookup(s.reg, id).value.cancelled)
  }

  lemma StepIssued(s: State, a: Act, id: nat)
    requires Issued(s, id) && Enabled(s, a)
    ensures Issued(Next(s, a), id)
  {
    var t := Next(s, a);
    if OfOneCore(a) {
      CoreStep(s, a);
      var k := CoreNext(s.cores[a.c], s.reg, s.nextId, a);
      assert k.ctl.Fetched? ==> a.Fetch? && k.ctl.id == s.nextId;
      hide Next, Enabled, CoreNext, CoreEnabled;
    } else {
      forall c | 0 <= c < |t.cores| ensures t.cores[c].ctl == s.cores[c].ctl { }
    }
  }

  /** A step changes the entry of an issued id only by marking, retuning or
      removing it. */
  lemma StepLookup(s: State, a: Act, id: nat)
    requires Inv(s) && Issued(s, id) && Enabled(s, a)
    ensures var was, now := Lookup(s.reg, id), Lookup(Next(s, a).reg, id);
      && (was.None? ==> now.None?)
      && (was.Some? && now.Some? && was.value.cancelled ==> now.value.cancelled)
      && (was.Some? && now.Some? && !(a.Retune? && a.id == id) ==> now.value.freq == was.value.freq)
  {
    hide Lookup, Cancelled, Retuned, Agrees, RoomOk;
    match a
    case Cancel(x) => CancelMarksOne(s.reg, x, id);
    case Retune(x, f) => SetFreqRetunesOne(s.reg, x, f, id);
    case Steal(_, _, _) =>
    case _ =>
      CoreStep(s, a);
      hide Next, Enabled;
      CoreLookup(s.cores[a.c].ctl, s.reg, a, id);
  }

  lemma CoreLookup(ctl: Ctl, reg: seq<Slot>, a: Act, id: nat)
    requires CoreEnabled(ctl, a) && Distinct(reg) && (a.Register? ==> Unused(reg, ctl.id) && ctl.id != id)
    ensures Lookup(RegNext(ctl, reg, a), id) == Lookup(reg, id) || Lookup(RegNext(ctl, reg, a), id).None?
  {
    hide Lookup;
    match a
    case Register(_) => InsertAddsOne(reg, ctl.id, ctl.freq, id);
    case GiveUp(_) => RetireRemovesOne(reg, ctl.id, id);
    case Reap(_) => RetireRemovesOne(reg, ctl.id, id);
    case Sync(_) => SyncReapsTheCancelled(reg, ctl.node.id, id);
    case _ =>
  }

  lemma StepStaysGone(s: State, a: Act, id: nat)
    requires Inv(s) && Enabled(s, a)
    ensures Gone(s, id) ==> Gone(Next(s, a), id)
    ensures Doomed(s, id) ==> Doomed(Next(s, a), id)
  {
    if Issued(s, id) {
      StepIssued(s, a, id);
      StepLookup(s, a, id);
    }
  }

  /** `is_alive`, once false for an issued id, stays false. */
  lemma {:induction false} GoneStaysGone(s: State, acts: seq<Act>, id: nat)
    requires Inv(s) && Gone(s, id) && Legal(s, acts)
    ensures Gone(After(s, acts), id)
    decreases |acts|
  {
    if acts != [] {
      StepKeeps(s, acts[0]);
      StepStaysGone(s, acts[0], id);
      GoneStaysGone(Next(s, acts[0]), acts[1..], id);
    }
  }

  lemma {:induction false} DoomedStaysDoomed(s: State, acts: seq<Act>, id: nat)
    requires Inv(s) && Doomed(s, id) && Legal(s, acts)
    ensures Doomed(After(s, acts), id)
    decreases |acts|
  {
    if acts != [] {
      StepKeeps(s, acts[0]);
      StepStaysGone(s, acts[0], id);
      DoomedStaysDoomed(Next(s, acts[0]), acts[1..], id);
    }
  }

  predicate IsPollOf(s: State, a: Act, id: nat)
    requires Enabled(s, a)
  {
    a.Poll? && s.cores[a.c].ctl.node.id == id
  }

  function Polls(s: State, acts: seq<Act>, id: nat): nat
    requires Legal(s, acts)
    decreases |acts|
  {
    if acts == [] then 0
    else (if IsPollOf(s, acts[0], id) then 1 else 0) + Polls(Next(s, acts[0]), acts[1..], id)
  }

  /** Some core has passed the registry check for this id and is about to poll it. */
  predicate PastSync(s: State, id: nat) {
    exists c :: 0 <= c < |s.cores| && DueFor(s.cores[c], id)
  }

  predicate DueFor(k: Core, id: nat) { k.ctl.Due? && k.ctl.node.id == id }

  lemma AtOnePlace(s: State, c: nat, d: nat, id: nat)
    requires Inv(s) && c < |s.cores| && d < |s.cores| && c != d && id in CoreBag(s.cores[c])
    ensures id !in CoreBag(s.cores[d])
  {
    SumContainsTwo(CoreBags(s.cores), c, d);
    AgreesAt(s, id);
    assert (CoreBag(s.cores[c]) + CoreBag(s.cores[d]))[id] <= 1;
  }

  lemma NodeInHand(k: Core)
    requires k.ctl.Holding? || k.ctl.Due?
    ensures k.ctl.node.id in CoreBag(k)
  {
    hide Ids;
    assert HandBag(k.ctl) == multiset{k.ctl.node.id};
  }

  lemma PollEndsIt(s: State, a: Act, id: nat)
    requires Inv(s) && Enabled(s, a) && IsPollOf(s, a, id)
    ensures !PastSync(Next(s, a), id)
  {
    var t := Next(s, a);
    CoreStep(s, a);
    assert DueFor(s.cores[a.c], id) && !DueFor(t.cores[a.c], id);
    hide Inv, Next, Enabled, CoreNext, CoreEnabled;
    forall d | 0 <= d < |t.cores| && d != a.c ensures !DueFor(t.cores[d], id) {
      DueAtOnePlace(s, a.c, d, id);
    }
  }

  lemma DueAtOnePlace(s: State, c: nat, d: nat, id: nat)
    requires Inv(s) && c < |s.cores| && d < |s.cores| && c != d && DueFor(s.cores[c], id)
    ensures !DueFor(s.cores[d], id)
  {
    hide Inv, CoreBag;
    NodeInHand(s.cores[c]);
    AtOnePlace(s, c, d, id);
    if DueFor(s.cores[d], id) { NodeInHand(s.cores[d]); }
  }

  lemma NeverBecomesDue(k: Core, reg: seq<Slot>, n: nat, a: Act, id: nat)
    requires CoreEnabled(k.ctl, a) && (Lookup(reg, id).Some? ==> Lookup(reg, id).value.cancelled)
    ensures !DueFor(CoreNext(k, reg, n, a), id)
  {
    hide Lookup, Ticks;
  }

  lemma OthersStayBack(s: State, a: Act, id: nat)
    requires Inv(s) && Enabled(s, a) && Doomed(s, id) && PastSync(Next(s, a), id)
    ensures PastSync(s, id)
  {
    hide Inv, Lookup;
    var t := Next(s, a);
    var c :| 0 <= c < |t.cores| && DueFor(t.cores[c], id);
    if OfOneCore(a) {
      CoreStep(s, a);
      hide Next, Enabled;
      NeverBecomesDue(s.cores[a.c], s.reg, s.nextId, a, id);
    }
    assert DueFor(s.cores[c], id);
  }

  /** A doomed id is polled once more only if a poll had already passed its check. */
  lemma {:induction false} DoomedPolls(s: State, acts: seq<Act>, id: nat)
    requires Inv(s) && Doomed(s, id) && Legal(s, acts)
    ensures Polls(s, acts, id) <= if PastSync(s, id) then 1 else 0
    decreases |acts|
  {
    if acts == [] { return; }
    var t := Next(s, acts[0]);
    StepKeeps(s, acts[0]);
    StepStaysGone(s, acts[0], id);
    DoomedPolls(t, acts[1..], id);
    if IsPollOf(s, acts[0], id) {
      assert DueFor(s.cores[acts[0].c], id);
      PollEndsIt(s, acts[0], id);
    } else if PastSync(t, id) {
      OthersStayBack(s, acts[0], id);
    }
  }

  lemma LiveIsIssued(s: State, id: nat)
    requires Inv(s) && Lookup(s.reg, id).Some?
    ensures Issued(s, id)
  {
    var k := Find(s.reg, Live(id));
    assert s.reg[k].id == id;
  }

  /** After a `cancel` that returned true the future is polled at most once more,
      and not at all unless a poll was already past the registry check. */
  lemma AtMostOneMorePoll(s: State, acts: seq<Act>, id: nat)
    requires Inv(s) && Lookup(s.reg, id).Some?
    requires Legal(Next(s, Cancel(id)), acts)
    ensures Polls(Next(s, Cancel(id)), acts, id) <= if PastSync(s, id) then 1 else 0
    ensures Doomed(After(Next(s, Cancel(id)), acts), id)
  {
    LiveIsIssued(s, id);
    StepKeeps(s, Cancel(id));
    StepIssued(s, Cancel(id), id);
    CancelMarksOne(s.reg, id, id);
    var t := Next(s, Cancel(id));
    assert t.cores == s.cores;
    DoomedPolls(t, acts, id);
    DoomedStaysDoomed(t, acts, id);
  }

  /** The next time the node of a doomed id is popped it is dropped, due or not:
      no node carries the id any more, and it is not alive. */
  lemma NextPopReaps(s: State, c: nat, id: nat)
    requires Inv(s) && Doomed(s, id) && Enabled(s, Sync(c)) && s.cores[c].ctl.node.id == id
    ensures var t := Next(s, Sync(c));
      Gone(t, id) && Placed(t.cores)[id] == 0 && |t.cores| == |s.cores| && t.cores[c].ctl.Draining?
  {
    HeldIsLive(s, c);
    StepKeeps(s, Sync(c));
    StepIssued(s, Sync(c), id);
    SyncReapsTheCancelled(s.reg, id, id);
    var t := Next(s, Sync(c));
    assert t.reg == Synced(s.reg, id);
    assert t.cores[c].ctl == AfterSync(s.cores[c].ctl, Lookup(s.reg, id), s.cores[c].base);
    hide Next;
    AgreesAt(t, id);
  }

  // ----- retuning -----

  /** The live id has rate `f`, and a poll of it that is about to happen uses it. */
  predicate Tuned(s: State, id: nat, f: nat) {
    && (Lookup(s.reg, id).Some? ==> Lookup(s.reg, id).value.freq == f)
    && forall c :: 0 <= c < |s.cores| ==> DueTuned(s.cores[c], id, f)
  }

  predicate DueTuned(k: Core, id: nat, f: nat) {
    DueFor(k, id) ==> k.ctl.node.interval == Ticks(f, k.base)
  }

  lemma CoreTuned(k: Core, reg: seq<Slot>, n: nat, a: Act, id: nat, f: nat)
    requires CoreEnabled(k.ctl, a) && (Lookup(reg, id).Some? ==> Lookup(reg, id).value.freq == f) && DueTuned(k, id, f)
    ensures DueTuned(CoreNext(k, reg, n, a), id, f)
  {
    hide Lookup, Ticks;
  }

  lemma StepTuned(s: State, a: Act, id: nat, f: nat)
    requires Inv(s) && Enabled(s, a) && Issued(s, id) && Tuned(s, id, f) && !(a.Retune? && a.id == id)
    ensures Tuned(Next(s, a), id, f)
  {
    hide Inv, Issued, Lookup;
    StepLookup(s, a, id);
    var t := Next(s, a);
    if OfOneCore(a) {
      CoreStep(s, a);
      hide Next, Enabled, CoreNext, CoreEnabled;
      CoreTuned(s.cores[a.c], s.reg, s.nextId, a, id, f);
    } else {
      forall c | 0 <= c < |t.cores| ensures DueTuned(t.cores[c], id, f) {
        assert t.cores[c].ctl == s.cores[c].ctl && t.cores[c].base == s.cores[c].base;
      }
    }
  }

  /** Every poll of `id` uses the interval of rate `f` on the clock of its core. */
  predicate PollsAt(s: State, acts: seq<Act>, id: nat, f: nat)
    requires Legal(s, acts)
    decreases |acts|
  {
    acts != [] ==>
      && (IsPollOf(s, acts[0], id) ==>
            s.cores[acts[0].c].ctl.node.interval == Ticks(f, s.cores[acts[0].c].base))
      && PollsAt(Next(s, acts[0]), acts[1..], id, f)
  }

  predicate NoRetune(acts: seq<Act>, id: nat) {
    acts != [] ==> !(acts[0].Retune? && acts[0].id == id) && NoRetune(acts[1..], id)
  }

  lemma {:induction false} TunedPolls(s: State, acts: seq<Act>, id: nat, f: nat)
    requires Inv(s) && Issued(s, id) && Tuned(s, id, f) && NoRetune(acts, id) && Legal(s, acts)
    ensures PollsAt(s, acts, id, f)
    decreases |acts|
  {
    hide Inv, Issued, Lookup, Next;
    if acts == [] { return; }
    StepKeeps(s, acts[0]);
    StepIssued(s, acts[0], id);
    StepTuned(s, acts[0], id, f);
    TunedPolls(Next(s, acts[0]), acts[1..], id, f);
    if IsPollOf(s, acts[0], id) {
      assert DueFor(s.cores[acts[0].c], id) && DueTuned(s.cores[acts[0].c], id, f);
    }
  }

  /** After a `set_freq` that returned true, with no poll of the id past its check,
      every poll up to the next `set_freq` uses the new rate, on whatever core. */
  lemma RetuneTakesEffect(s: State, acts: seq<Act>, id: nat, f: nat)
    requires Inv(s) && Lookup(s.reg, id).Some? && !PastSync(s, id) && NoRetune(acts, id)
    requires Legal(Next(s, Retune(id, f)), acts)
    ensures PollsAt(Next(s, Retune(id, f)), acts, id, f)
  {
    LiveIsIssued(s, id);
    StepKeeps(s, Retune(id, f));
    StepIssued(s, Retune(id, f), id);
    SetFreqRetunesOne(s.reg, id, f, id);
    TunedPolls(Next(s, Retune(id, f)), acts, id, f);
  }

  // ----- rates -----

  function PollNow(s: State, a: Act, id: nat): seq<RateBound.Poll>
    requires Enabled(s, a)
  {
    if IsPollOf(s, a, id) then [RateBound.Poll(s.cores[a.c].ctl.time, s.cores[a.c].ctl.node.interval)] else []
  }

  /** The polls of one id, with their times and intervals. */
  function PollLog(s: State, acts: seq<Act>, id: nat): seq<RateBound.Poll>
    requires Legal(s, acts)
    decreases |acts|
  {
    if acts == [] then [] else PollNow(s, acts[0], id) + PollLog(Next(s, acts[0]), acts[1..], id)
  }

  predicate NodeFrom(n: Node, id: nat, x: nat) { n.id == id ==> x <= n.next }

  predicate QueueFrom(q: seq<Node>, id: nat, x: nat) {
    forall i :: 0 <= i < |q| ==> NodeFrom(q[i], id, x)
  }

  predicate HandFrom(ctl: Ctl, id: nat, x: nat) {
    match ctl
    case Holding(_, _, n) => NodeFrom(n, id, x)
    case Returning(_, _, n) => NodeFrom(n, id, x)
    case Due(_, time, n) => n.id == id ==> x <= time
    case Spawning(n) => n.id != id || x == 0
    case _ => true
  }

  /** No node of this id will be polled before time `x`, wherever it is. */
  predicate NotBefore(s: State, id: nat, x: nat) {
    forall c :: 0 <= c < |s.cores| ==> QueueFrom(s.cores[c].queue, id, x) && HandFrom(s.cores[c].ctl, id, x)
  }

  lemma CoreNotBefore(k: Core, reg: seq<Slot>, n: nat, a: Act, id: nat, x: nat)
    requires CoreEnabled(k.ctl, a) && (a.Poll? ==> k.ctl.node.id != id)
    requires a.Register? ==> k.ctl.id != id
    requires QueueFrom(k.queue, id, x) && HandFrom(k.ctl, id, x)
    ensures var k' := CoreNext(k, reg, n, a); QueueFrom(k'.queue, id, x) && HandFrom(k'.ctl, id, x)
  {
    hide Lookup, Ticks;
  }

  lemma StepNotBefore(s: State, a: Act, id: nat, x: nat)
    requires Issued(s, id) && Enabled(s, a) && !IsPollOf(s, a, id) && NotBefore(s, id, x)
    ensures NotBefore(Next(s, a), id, x)
  {
    var t := Next(s, a);
    match a
    case Steal(c, victim, count) =>
      assert QueueFrom(s.cores[c].queue, id, x) && QueueFrom(s.cores[victim].queue, id, x);
    case Cancel(_) =>
    case Retune(_, _) =>
    case _ =>
      CoreStep(s, a);
      hide Next, Enabled;
      CoreNotBefore(s.cores[a.c], s.reg, s.nextId, a, id, x);
  }

  lemma NotInQueue(q: seq<Node>, id: nat)
    requires id !in multiset(Ids(q))
    ensures forall i :: 0 <= i < |q| ==> q[i].id != id
  {
    forall i | 0 <= i < |q| ensures q[i].id != id { assert Ids(q)[i] in multiset(Ids(q)); }
  }

  /** Nobody else holds the node that is being polled. */
  lemma NobodyElse(s: State, c: nat, d: nat, id: nat, x: nat)
    requires Inv(s) && c < |s.cores| && d < |s.cores| && DueFor(s.cores[c], id)
    ensures QueueFrom(s.cores[d].queue, id, x) && (d != c ==> HandFrom(s.cores[d].ctl, id, x))
  {
    NodeInHand(s.cores[c]);
    var k := s.cores[d];
    if d == c {
      PlacedContains(s.cores, c);
      AgreesAt(s, id);
      assert multiset(Ids(k.queue))[id] + HandBag(k.ctl)[id] <= 1;
    } else {
      AtOnePlace(s, c, d, id);
    }
    assert id !in multiset(Ids(k.queue)) && (d != c ==> id !in HandBag(k.ctl));
    NotInQueue(k.queue, id);
    assert d != c ==> HandFrom(k.ctl, id, x);
  }

  /** After a poll at `time` the node waits for its interval, wherever it goes. */
  lemma PollSetsNext(s: State, a: Act, id: nat)
    requires Inv(s) && Enabled(s, a) && IsPollOf(s, a, id)
    ensures var k := s.cores[a.c].ctl; NotBefore(Next(s, a), id, (k.time + k.node.interval) % WORD64)
  {
    var t := Next(s, a);
    var k := s.cores[a.c].ctl;
    var x := (k.time + k.node.interval) % WORD64;
    CoreStep(s, a);
    assert DueFor(s.cores[a.c], id) && t.cores[a.c].queue == s.cores[a.c].queue;
    assert HandFrom(t.cores[a.c].ctl, id, x);
    hide Next, Enabled, CoreNext, CoreEnabled, QueueFrom, HandFrom;
    NobodyElseAt(s, t, a.c, id, x);
  }

  lemma NobodyElseAt(s: State, t: State, c: nat, id: nat, x: nat)
    requires Inv(s) && c < |s.cores| && DueFor(s.cores[c], id)
    requires |t.cores| == |s.cores| && t.cores == s.cores[c := t.cores[c]]
    requires t.cores[c].queue == s.cores[c].queue && HandFrom(t.cores[c].ctl, id, x)
    ensures NotBefore(t, id, x)
  {
    hide Inv, QueueFrom, HandFrom;
    forall d | 0 <= d < |t.cores| ensures QueueFrom(t.cores[d].queue, id, x) && HandFrom(t.cores[d].ctl, id, x) {
      NobodyElse(s, c, d, id, x);
    }
  }

  /** No sum of a poll's time and interval leaves the 64-bit range. */
  predicate InRange(log: seq<RateBound.Poll>, d: nat) {
    forall i :: 0 <= i < |log| ==> log[i].interval >= d && log[i].time + log[i].interval < WORD64
  }

  lemma RestInRange(first: seq<RateBound.Poll>, rest: seq<RateBound.Poll>, d: nat)
    requires InRange(first + rest, d)
    ensures InRange(first, d) && InRange(rest, d)
  {
    forall i | 0 <= i < |first| ensures first[i].interval >= d && first[i].time + first[i].interval < WORD64 {
      assert first[i] == (first + rest)[i];
    }
    forall i | 0 <= i < |rest| ensures rest[i].interval >= d && rest[i].time + rest[i].interval < WORD64 {
      assert rest[i] == (first + rest)[|first| + i];
    }
  }

  lemma LogStep(s: State, acts: seq<Act>, id: nat)
    requires Legal(s, acts) && acts != []
    ensures PollLog(s, acts, id) == PollNow(s, acts[0], id) + PollLog(Next(s, acts[0]), acts[1..], id)
  {
  }

  /** What the first step leaves for the rest of the run to show. */
  lemma NextFrom(s: State, a: Act, id: nat, x: nat, d: nat) returns (y: nat)
    requires Inv(s) && Issued(s, id) && NotBefore(s, id, x) && Enabled(s, a) && InRange(PollNow(s, a, id), d)
    ensures Inv(Next(s, a)) && Issued(Next(s, a), id) && NotBefore(Next(s, a), id, y)
    ensures var now := PollNow(s, a, id);
      if now == [] then y == x else now == [now[0]] && x <= now[0].time && y == now[0].time + now[0].interval
  {
    StepKeeps(s, a);
    StepIssued(s, a, id);
    if IsPollOf(s, a, id) {
      y := NextAfterPoll(s, a, id, x, d);
    } else {
      hide Next, Inv, Issued, Enabled, NotBefore;
      StepNotBefore(s, a, id, x);
      y := x;
    }
  }

  lemma NextAfterPoll(s: State, a: Act, id: nat, x: nat, d: nat) returns (y: nat)
    requires Inv(s) && NotBefore(s, id, x) && Enabled(s, a) && InRange(PollNow(s, a, id), d) && IsPollOf(s, a, id)
    ensures NotBefore(Next(s, a), id, y)
    ensures var now := PollNow(s, a, id); now == [now[0]] && x <= now[0].time && y == now[0].time + now[0].interval
  {
    assert HandFrom(s.cores[a.c].ctl, id, x);
    PollSetsNext(s, a, id);
    hide Next, Inv, NotBefore;
    var now := PollNow(s, a, id);
    y := now[0].time + now[0].interval;
    assert y < WORD64;
  }

  lemma {:induction false} PollsKeepTheirDistance(s: State, acts: seq<Act>, id: nat, x: nat, d: nat)
    requires Inv(s) && Issued(s, id) && NotBefore(s, id, x) && Legal(s, acts)
    requires InRange(PollLog(s, acts, id), d)
    ensures var log := PollLog(s, acts, id); Apart(log, d) && (log != [] ==> x <= log[0].time)
    decreases |acts|
  {
    if acts == [] { return; }
    LogStep(s, acts, id);
    hide Next, Enabled, Inv, PollLog, Issued, NotBefore, PollNow;
    var now, rest := PollNow(s, acts[0], id), PollLog(Next(s, acts[0]), acts[1..], id);
    RestInRange(now, rest, d);
    var y := NextFrom(s, acts[0], id, x, d);
    PollsKeepTheirDistance(Next(s, acts[0]), acts[1..], id, y, d);
    if now == [] {
      assert now + rest == rest;
    } else {
      ApartStep(now[0], rest, d);
    }
  }

  lemma FromTheStart(s: State, id: nat)
    ensures NotBefore(s, id, 0)
  {
  }

  /** On any number of cores, stealing from each other at will, a task whose
      interval is at least `d` ticks is polled at most floor((b - a) / d) + 1
      times in the window [a, b] of their clocks. */
  lemma RateIsBounded(s: State, acts: seq<Act>, id: nat, a: nat, b: nat, d: nat)
    requires Inv(s) && Issued(s, id) && Legal(s, acts) && a <= b && d >= 1
    requires InRange(PollLog(s, acts, id), d)
    ensures InWindow(PollLog(s, acts, id), a, b) <= (b - a) / d + 1
  {
    FromTheStart(s, id);
    PollsKeepTheirDistance(s, acts, id, 0, d);
    AtMostRate(PollLog(s, acts, id), a, b, d);
  }
}
