/** When the dynamic executor polls a task again: exactly when its node is popped at
    its next time or later, wherever it was stolen to; and never once it was ready. */
module DynamicTimes {
  import opened Clock
  import opened Options
  import opened Registry
  import opened BagSums
  import opened DynamicMachine
  import opened DynamicRuns

  predicate QueueAt(q: seq<Node>, id: nat, x: nat) {
    forall i :: 0 <= i < |q| && q[i].id == id ==> q[i].next == x
  }

  predicate HandAt(ctl: Ctl, id: nat, x: nat) {
    match ctl
    case Spawning(n) => n.id == id ==> n.next == x
    case Holding(_, _, n) => n.id == id ==> n.next == x
    case Due(_, _, n) => n.id == id ==> n.next == x
    case Returning(_, _, n) => n.id == id ==> n.next == x
    case _ => true
  }

  /** The node of this id, wherever it is, is next due at `x`. */
  predicate NextIs(s: State, id: nat, x: nat) {
    forall c :: 0 <= c < |s.cores| ==> QueueAt(s.cores[c].queue, id, x) && HandAt(s.cores[c].ctl, id, x)
  }

  lemma CoreKeepsNext(k: Core, reg: seq<Slot>, n: nat, a: Act, id: nat, x: nat)
    requires CoreEnabled(k.ctl, a) && (a.Poll? ==> k.ctl.node.id != id) && (a.Register? ==> k.ctl.id != id)
    requires QueueAt(k.queue, id, x) && HandAt(k.ctl, id, x)
    ensures var k' := CoreNext(k, reg, n, a); QueueAt(k'.queue, id, x) && HandAt(k'.ctl, id, x)
  {
    hide Lookup, Ticks;
  }

  lemma StepKeepsNext(s: State, a: Act, id: nat, x: nat)
    requires Issued(s, id) && Enabled(s, a) && !IsPollOf(s, a, id) && NextIs(s, id, x)
    ensures NextIs(Next(s, a), id, x)
  {
    var t := Next(s, a);
    match a
    case Steal(c, victim, count) =>
      assert QueueAt(s.cores[c].queue, id, x) && QueueAt(s.cores[victim].queue, id, x);
    case Cancel(_) =>
    case Retune(_, _) =>
    case _ =>
      CoreStep(s, a);
      hide Next, Enabled;
      CoreKeepsNext(s.cores[a.c], s.reg, s.nextId, a, id, x);
  }

  lemma {:induction false} RunKeepsNext(s: State, acts: seq<Act>, id: nat, x: nat)
    requires Inv(s) && Issued(s, id) && NextIs(s, id, x) && Legal(s, acts) && Polls(s, acts, id) == 0
    ensures Inv(After(s, acts)) && NextIs(After(s, acts), id, x)
    decreases |acts|
  {
    hide Inv, Issued, NextIs, Next, Enabled;
    if acts != [] {
      StepKeeps(s, acts[0]);
      StepIssued(s, acts[0], id);
      StepKeepsNext(s, acts[0], id, x);
      RunKeepsNext(Next(s, acts[0]), acts[1..], id, x);
    }
  }

  /** Nobody else holds a node that is in a hand. */
  lemma NoOtherNode(s: State, c: nat, d: nat, id: nat, x: nat)
    requires Inv(s) && c < |s.cores| && d < |s.cores| && id in HandBag(s.cores[c].ctl)
    ensures QueueAt(s.cores[d].queue, id, x) && (d != c ==> HandAt(s.cores[d].ctl, id, x))
  {
    var k := s.cores[d];
    if d == c {
      PlacedContains(s.cores, c);
      AgreesAt(s, id);
      assert multiset(Ids(k.queue))[id] + HandBag(k.ctl)[id] <= 1;
    } else {
      AtOnePlace(s, c, d, id);
    }
    assert id !in multiset(Ids(k.queue)) && (d != c ==> id !in HandBag(k.ctl));
    NotInQueue(k.queue, id);
  }

  lemma HandSetsNext(s: State, t: State, c: nat, id: nat, x: nat)
    requires Inv(s) && c < |s.cores| && id in HandBag(s.cores[c].ctl)
    requires |t.cores| == |s.cores| && t.cores == s.cores[c := t.cores[c]]
    requires t.cores[c].queue == s.cores[c].queue && HandAt(t.cores[c].ctl, id, x)
    ensures NextIs(t, id, x)
  {
    hide Inv, QueueAt, HandAt;
    forall d | 0 <= d < |t.cores| ensures QueueAt(t.cores[d].queue, id, x) && HandAt(t.cores[d].ctl, id, x) {
      NoOtherNode(s, c, d, id, x);
    }
  }

  lemma PendingInHand(k: Core, reg: seq<Slot>, n: nat, a: Act)
    requires CoreEnabled(k.ctl, a) && a.Poll? && !a.ready
    ensures var t, x, id := CoreNext(k, reg, n, a), (k.ctl.time + k.ctl.node.interval) % WORD64, k.ctl.node.id;
      t.queue == k.queue && HandAt(t.ctl, id, x) && id in HandBag(k.ctl)
  {
  }

  /** A pending poll at a time puts the node off by the interval in force, within a
      64-bit word. */
  lemma APendingPollSetsNext(s: State, a: Act, id: nat)
    requires Inv(s) && Enabled(s, a) && IsPollOf(s, a, id) && !a.ready
    ensures var k := s.cores[a.c].ctl; NextIs(Next(s, a), id, (k.time + k.node.interval) % WORD64)
  {
    hide Inv, Next, Enabled, CoreNext, CoreEnabled, HandAt, HandBag, NextIs, RegNext;
    CoreStep(s, a);
    PendingInHand(s.cores[a.c], s.reg, s.nextId, a);
    var k := s.cores[a.c].ctl;
    HandSetsNext(s, Next(s, a), a.c, id, (k.time + k.node.interval) % WORD64);
  }

  /** A node whose next time is `x` is polled, when it is popped, if and only if it
      is popped at `x` or later and is not cancelled. */
  lemma PoppedIsPolledExactly(s: State, c: nat, id: nat, x: nat)
    requires Inv(s) && NextIs(s, id, x) && Enabled(s, Sync(c)) && s.cores[c].ctl.node.id == id
    ensures Lookup(s.reg, id).Some? && |Next(s, Sync(c)).cores| == |s.cores|
    ensures var k, info := Next(s, Sync(c)).cores[c].ctl, Lookup(s.reg, id).value;
      && (k.Due? <==> !info.cancelled && x <= s.cores[c].ctl.time)
      && (k.Due? ==> k.node == Node(id, Ticks(info.freq, s.cores[c].base), x) && k.time == s.cores[c].ctl.time)
  {
    HeldIsLive(s, c);
    hide Inv, Ticks, Lookup;
    assert HandAt(s.cores[c].ctl, id, x);
    CoreStep(s, Sync(c));
  }

  lemma PopsPollExactly(s: State, acts: seq<Act>, id: nat, x: nat, c: nat)
    requires Inv(s) && Issued(s, id) && NextIs(s, id, x) && Legal(s, acts) && Polls(s, acts, id) == 0
    requires var t := After(s, acts); Enabled(t, Sync(c)) && t.cores[c].ctl.node.id == id
    ensures var t := After(s, acts);
      && Lookup(t.reg, id).Some? && |Next(t, Sync(c)).cores| == |t.cores|
      && (Next(t, Sync(c)).cores[c].ctl.Due? <==> !Lookup(t.reg, id).value.cancelled && x <= t.cores[c].ctl.time)
  {
    hide Inv, Issued, NextIs, Lookup, Next, Legal, After, Polls;
    RunKeepsNext(s, acts, id, x);
    PoppedIsPolledExactly(After(s, acts), c, id, x);
  }

  /** After a pending poll at `time` with interval `d`, and as long as there is no
      other poll of the id: a pop of its node, on whatever core, polls it exactly if
      it comes at `time` + `d` or later, in a 64-bit word, and nobody cancelled it. */
  lemma PolledAgainWhenDue(s: State, a: Act, acts: seq<Act>, id: nat, c: nat)
    requires Inv(s) && Issued(s, id) && Enabled(s, a) && IsPollOf(s, a, id) && !a.ready
    requires Legal(Next(s, a), acts) && Polls(Next(s, a), acts, id) == 0
    requires var t := After(Next(s, a), acts); Enabled(t, Sync(c)) && t.cores[c].ctl.node.id == id
    ensures var k, t := s.cores[a.c].ctl, After(Next(s, a), acts);
      && Lookup(t.reg, id).Some? && |Next(t, Sync(c)).cores| == |t.cores|
      && (Next(t, Sync(c)).cores[c].ctl.Due? <==>
            !Lookup(t.reg, id).value.cancelled && (k.time + k.node.interval) % WORD64 <= t.cores[c].ctl.time)
  {
    hide Inv, Issued, NextIs, Lookup, Next, Legal, After, Polls;
    APendingPollSetsNext(s, a, id);
    StepKeeps(s, a);
    StepIssued(s, a, id);
    PopsPollExactly(Next(s, a), acts, id, (s.cores[a.c].ctl.time + s.cores[a.c].ctl.node.interval) % WORD64, c);
  }

  /** A spawned node is due from the start: the first pop of it polls it, unless its
      id was cancelled by then. */
  lemma ASpawnIsDueAtOnce(s: State, a: Act, acts: seq<Act>, id: nat, c: nat)
    requires Inv(s) && Enabled(s, a) && a.Register? && s.cores[a.c].ctl.id == id
    requires Legal(Next(s, a), acts) && Polls(Next(s, a), acts, id) == 0
    requires var t := After(Next(s, a), acts); Enabled(t, Sync(c)) && t.cores[c].ctl.node.id == id
    ensures var t := After(Next(s, a), acts);
      && Lookup(t.reg, id).Some? && |Next(t, Sync(c)).cores| == |t.cores|
      && (Next(t, Sync(c)).cores[c].ctl.Due? <==> !Lookup(t.reg, id).value.cancelled)
  {
    hide Inv, Issued, NextIs, Lookup, Next, Legal, After, Polls;
    StepKeeps(s, a);
    RegisterSetsNext(s, a, id);
    PopsPollExactly(Next(s, a), acts, id, 0, c);
  }

  lemma RegisterSetsNext(s: State, a: Act, id: nat)
    requires Inv(s) && Enabled(s, a) && a.Register? && s.cores[a.c].ctl.id == id
    ensures Issued(Next(s, a), id) && NextIs(Next(s, a), id, 0)
  {
    StepKeeps(s, a);
    var t := Next(s, a);
    CoreStep(s, a);
    assert t.cores[a.c].ctl.Spawning? && t.cores[a.c].ctl.node.id == id && t.cores[a.c].ctl.node.next == 0;
    assert Issued(t, id);
    hide Inv, Next, Enabled, CoreNext, CoreEnabled, QueueAt;
    forall d | 0 <= d < |t.cores| ensures QueueAt(t.cores[d].queue, id, 0) && HandAt(t.cores[d].ctl, id, 0) {
      NoOtherNode(t, a.c, d, id, 0);
    }
  }

  // ----- a finished task -----

  /** Some core is about to retire the id, or it is retired. */
  predicate Ending(s: State, id: nat) {
    Gone(s, id) || exists c :: 0 <= c < |s.cores| && EndedBy(s.cores[c], id)
  }

  predicate EndedBy(k: Core, id: nat) { k.ctl.Finished? && k.ctl.id == id }

  lemma EndedInBag(k: Core, id: nat)
    requires EndedBy(k, id)
    ensures id in CoreBag(k)
  {
    hide Ids;
    assert HandBag(k.ctl) == multiset{id};
  }

  lemma NotPolledWhileEnding(s: State, c: nat, d: nat, id: nat)
    requires Inv(s) && c < |s.cores| && EndedBy(s.cores[c], id) && d < |s.cores|
    ensures !DueFor(s.cores[d], id)
  {
    hide Inv, CoreBag;
    EndedInBag(s.cores[c], id);
    if DueFor(s.cores[d], id) {
      NodeInHand(s.cores[d]);
      AtOnePlace(s, d, c, id);
    }
  }

  lemma NotPolledWhenGone(s: State, d: nat, id: nat)
    requires Inv(s) && Gone(s, id) && d < |s.cores|
    ensures !DueFor(s.cores[d], id)
  {
    if DueFor(s.cores[d], id) {
      NodeInHand(s.cores[d]);
      hide Inv, CoreBag, FetchedOk, RoomOk;
      assert IdsOk(s) && Agrees(s) by { InvIs(s); }
      HandIsLive(s, d, id);
    }
  }

  lemma InvIs(s: State)
    requires Inv(s)
    ensures IdsOk(s) && Agrees(s)
  {
  }

  lemma EndingIsNotPolled(s: State, a: Act, id: nat)
    requires Inv(s) && Ending(s, id) && Enabled(s, a)
    ensures !IsPollOf(s, a, id)
  {
    hide Inv, Gone, EndedBy, CoreBag;
    if IsPollOf(s, a, id) {
      assert DueFor(s.cores[a.c], id);
      if Gone(s, id) {
        NotPolledWhenGone(s, a.c, id);
      } else {
        var c :| 0 <= c < |s.cores| && EndedBy(s.cores[c], id);
        NotPolledWhileEnding(s, c, a.c, id);
      }
    }
  }

  lemma ReapEnds(s: State, a: Act, c: nat, id: nat)
    requires Inv(s) && Enabled(s, a) && Issued(Next(s, a), id)
    requires c < |s.cores| && EndedBy(s.cores[c], id) && OfOneCore(a) && a.c == c
    ensures Gone(Next(s, a), id)
  {
    InvIs(s);
    hide Inv, Lookup, Retired, Agrees, Issued;
    CoreStep(s, a);
    assert a.Reap?;
    assert Next(s, a).reg == Retired(s.reg, id);
    hide Next;
    RetireRemovesOne(s.reg, id, id);
  }

  lemma OthersLeaveIt(s: State, a: Act, c: nat)
    requires c < |s.cores| && Enabled(s, a) && !(OfOneCore(a) && a.c == c)
    ensures c < |Next(s, a).cores| && Next(s, a).cores[c].ctl == s.cores[c].ctl
  {
    if OfOneCore(a) {
      CoreStep(s, a);
      hide Next, CoreNext;
    }
  }

  lemma EndingStays(s: State, a: Act, id: nat)
    requires Inv(s) && Issued(s, id) && Ending(s, id) && Enabled(s, a)
    ensures Ending(Next(s, a), id)
  {
    hide Inv, Issued, Gone, Next, Enabled;
    StepIssued(s, a, id);
    StepStaysGone(s, a, id);
    if !Gone(s, id) {
      var c :| 0 <= c < |s.cores| && EndedBy(s.cores[c], id);
      if OfOneCore(a) && a.c == c {
        ReapEnds(s, a, c, id);
      } else {
        OthersLeaveIt(s, a, c);
        assert EndedBy(Next(s, a).cores[c], id);
      }
    }
  }

  lemma {:induction false} EndingIsNeverPolled(s: State, acts: seq<Act>, id: nat)
    requires Inv(s) && Issued(s, id) && Ending(s, id) && Legal(s, acts)
    ensures Polls(s, acts, id) == 0
    decreases |acts|
  {
    hide Inv, Issued, Ending, Next, Enabled;
    if acts != [] {
      EndingIsNotPolled(s, acts[0], id);
      StepKeeps(s, acts[0]);
      StepIssued(s, acts[0], id);
      EndingStays(s, acts[0], id);
      EndingIsNeverPolled(Next(s, acts[0]), acts[1..], id);
    }
  }

  /** A future that was ready is never polled again. */
  lemma ReadyIsNeverPolledAgain(s: State, a: Act, acts: seq<Act>, id: nat)
    requires Inv(s) && Issued(s, id) && Enabled(s, a) && IsPollOf(s, a, id) && a.ready
    requires Legal(Next(s, a), acts)
    ensures Polls(Next(s, a), acts, id) == 0
  {
    StepKeeps(s, a);
    StepIssued(s, a, id);
    assert EndedBy(Next(s, a).cores[a.c], id);
    EndingIsNeverPolled(Next(s, a), acts, id);
  }
}
