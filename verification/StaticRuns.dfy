/** The theorems about whole runs of the static executor on any number of cores,
    without wakes; each core adds before it runs, and its adds find room. */
module StaticRuns {
  import opened Words
  import opened Ring
  import opened BagSums
  import opened LifoInvariant
  import opened StaticExecutor
  import opened StaticInvariant
  import opened StaticSafety
  import L = LifoMachine
  import LifoSafety
  import LifoRuns
  import C = LifoConservation
  import R = LifoRefinement

  // ----- the tasks -----

  lemma TasksKeep(s: State, c: nat, a: Act, s': State)
    requires TasksOk(s) && Step(s, c, a, s')
    ensures TasksOk(s')
  {
    if a.Queue? || a.Returns? || a.CallPush? || a.CallPop? || a.CallSteal?
      || a.EnterRun? || a.SkipSelf? || a.GiveUp? {
      RunnersSame(s, c, a, s');
    } else if a.Claim? || a.AddSwaps? {
      StartsKeep(s, c, a, s');
    } else {
      TaskStepsKeep(s, c, a, s');
    }
  }

  lemma RunnersSame(s: State, c: nat, a: Act, s': State)
    requires TasksOk(s) && Step(s, c, a, s')
    requires a.Queue? || a.Returns? || a.CallPush? || a.CallPop? || a.CallSteal?
      || a.EnterRun? || a.SkipSelf? || a.GiveUp?
    ensures TasksOk(s')
  {
    NobodyRuns(s, c, a, s');
    SameRunners(s, s');
  }

  /** The same cores run the same tasks, and the marks of running tasks stay. */
  lemma SameRunners(s: State, s': State)
    requires TasksOk(s) && |s'.ctl| == |s.ctl| && |s'.tasks| == |s.tasks|
    requires forall d, t :: 0 <= d < |s.ctl| ==> (RunsTask(s'.ctl[d], t) <==> RunsTask(s.ctl[d], t))
    requires forall t :: 0 <= t < |s.tasks| ==> (s'.tasks[t] == Running <==> s.tasks[t] == Running)
    ensures TasksOk(s')
  {
    forall d, t | 0 <= d < |s'.ctl| && RunsTask(s'.ctl[d], t) ensures IsTask(s', t) && s'.tasks[t] == Running {
      assert RunsTask(s.ctl[d], t);
    }
    forall d, e, t | 0 <= d < |s'.ctl| && 0 <= e < |s'.ctl| && RunsTask(s'.ctl[d], t) && RunsTask(s'.ctl[e], t)
      ensures d == e
    {
      assert RunsTask(s.ctl[d], t) && RunsTask(s.ctl[e], t);
    }
    forall t | 0 <= t < |s'.tasks| && s'.tasks[t] == Running ensures HasRunner(s', t) {
      assert HasRunner(s, t);
      var d :| 0 <= d < |s.ctl| && RunsTask(s.ctl[d], t);
      assert RunsTask(s'.ctl[d], t);
    }
  }

  lemma NobodyRuns(s: State, c: nat, a: Act, s': State)
    requires Step(s, c, a, s')
    requires a.Queue? || a.Returns? || a.CallPush? || a.CallPop? || a.CallSteal?
      || a.EnterRun? || a.SkipSelf? || a.GiveUp?
    ensures |s'.ctl| == |s.ctl| && s'.tasks == s.tasks
    ensures forall d, t :: 0 <= d < |s.ctl| ==> (RunsTask(s'.ctl[d], t) <==> RunsTask(s.ctl[d], t))
  {
    var x := s.ctl[c];
    if a.CallPush? { assert s'.ctl[c] == if x.AddCall? then Adding(x.t) else Requeueing(x.t); }
    if a.Returns? { assert s'.ctl[c] == After(x, s.q.pcs[c].result); }
    if a.Queue? { assert s'.ctl[c] == x; }
  }

  lemma StartsKeep(s: State, c: nat, a: Act, s': State)
    requires TasksOk(s) && Step(s, c, a, s') && (a.Claim? || a.AddSwaps?)
    ensures TasksOk(s')
  {
    SameRunners(s, s');
  }

  lemma TaskStepsKeep(s: State, c: nat, a: Act, s': State)
    requires TasksOk(s) && Step(s, c, a, s')
    requires a.RunSwaps? || a.PollReady? || a.PollPending? || a.Finishes? || a.StoresReady?
    ensures TasksOk(s')
  {
    var t0 := s.ctl[c].t;
    if a.PollReady? || a.PollPending? || (a.RunSwaps? && s.tasks[t0] != Ready) {
      SameRunners(s, s');
    } else if a.RunSwaps? {
      BeginsKeeps(s, c, t0, s');
    } else {
      assert RunsTask(s.ctl[c], t0);
      EndsKeeps(s, c, t0, s');
    }
  }

  /** Core `c` begins to run the ready task `t0`. */
  lemma BeginsKeeps(s: State, c: nat, t0: Ptr, s': State)
    requires TasksOk(s) && c < |s.ctl| && IsTask(s, t0) && s.tasks[t0] == Ready && s.ctl[c] == Got(t0)
    requires s'.ctl == s.ctl[c := Polling(t0)] && s'.tasks == s.tasks[t0 := Running]
    ensures TasksOk(s')
  {
    forall d, t | 0 <= d < |s'.ctl| && RunsTask(s'.ctl[d], t)
      ensures IsTask(s', t) && s'.tasks[t] == Running && (t == t0 ==> d == c)
    {
      if d != c { assert RunsTask(s.ctl[d], t); }
    }
    forall d, e, t | 0 <= d < |s'.ctl| && 0 <= e < |s'.ctl| && RunsTask(s'.ctl[d], t) && RunsTask(s'.ctl[e], t)
      ensures d == e
    {
      if t != t0 { assert RunsTask(s.ctl[d], t) && RunsTask(s.ctl[e], t); }
    }
    forall t | 0 <= t < |s'.tasks| && s'.tasks[t] == Running ensures HasRunner(s', t) {
      if t == t0 {
        assert RunsTask(s'.ctl[c], t);
      } else {
        assert HasRunner(s, t);
        var d :| 0 <= d < |s.ctl| && RunsTask(s.ctl[d], t);
        assert RunsTask(s'.ctl[d], t);
      }
    }
  }

  /** Core `c` stops running `t0`, which is no longer marked running. */
  lemma EndsKeeps(s: State, c: nat, t0: Ptr, s': State)
    requires TasksOk(s) && c < |s.ctl| == |s'.ctl| && RunsTask(s.ctl[c], t0) && IsTask(s, t0) && |s'.tasks| == |s.tasks|
    requires s'.ctl == s.ctl[c := s'.ctl[c]] && s'.tasks == s.tasks[t0 := s'.tasks[t0]]
    requires s'.tasks[t0] != Running && (s'.ctl[c] == Loop || s'.ctl[c].Requeue?)
    ensures TasksOk(s')
  {
    forall d, t | 0 <= d < |s'.ctl| && RunsTask(s'.ctl[d], t)
      ensures d != c && t != t0 && IsTask(s', t) && s'.tasks[t] == Running
    {
      assert d != c && RunsTask(s.ctl[d], t);
    }
    forall d, e, t | 0 <= d < |s'.ctl| && 0 <= e < |s'.ctl| && RunsTask(s'.ctl[d], t) && RunsTask(s'.ctl[e], t)
      ensures d == e
    {
      assert RunsTask(s.ctl[d], t) && RunsTask(s.ctl[e], t);
    }
    forall t | 0 <= t < |s'.tasks| && s'.tasks[t] == Running ensures HasRunner(s', t) {
      assert HasRunner(s, t);
      var d :| 0 <= d < |s.ctl| && RunsTask(s.ctl[d], t);
      assert d != c && RunsTask(s'.ctl[d], t);
    }
  }

  lemma ClaimsKeep(s: State, c: nat, a: Act, s': State)
    requires ClaimsOk(s) && TasksOk(s) && Step(s, c, a, s')
    ensures ClaimsOk(s')
  {
    NothingIsFreed(s, c, a, s');
    hide Step, TasksOk;
  }

  /** Slots are claimed one at a time, and never become free again. */
  lemma NothingIsFreed(s: State, c: nat, a: Act, s': State)
    requires Step(s, c, a, s')
    ensures |s'.tasks| == |s.tasks| && forall t :: 0 <= t < |s.tasks| && s'.tasks[t] == Free ==> s.tasks[t] == Free
    ensures if a.Claim? then
        IsTask(s, a.slot) && s.tasks[a.slot] == Free && s'.tasks[a.slot] != Free && s'.claims == s.claims + [a.slot]
      else s'.claims == s.claims
  {
  }

  // ----- the entries -----

  /** All entries in queues, in transit and in hands. */
  ghost function Entries(q: L.State): multiset<Ptr>
    requires Inv(q)
  {
    Sum(C.Bags(q))
  }

  /** Every ready task has an entry in a queue, in transit or in a hand, and no
      entry anywhere points at anything but a task. */
  ghost predicate EntriesOk(s: State)
    requires Inv(s.q)
  {
    && (forall t :: IsTask(s, t) && s.tasks[t] == Ready ==> t in Entries(s.q))
    && (forall p :: p in Entries(s.q) ==> IsTask(s, p))
  }

  lemma HandEdit(q: L.State, c: nat, h: multiset<Ptr>, q': L.State)
    requires Inv(q) && Inv(q') && c < |q.qs| && q' == SetHand(q, c, h)
    ensures Entries(q') + q.hands[c] == Entries(q) + h
  {
    var base := multiset(R.Deque(q, c)) + C.HeldBy(q.pcs[c]) + C.DrainBag(q.drains[c]);
    assert C.Bags(q') == C.Bags(q)[c := base + h];
    assert C.Bags(q)[c] == base + q.hands[c];
    SumUpdate(C.Bags(q), c, base + h);
    Cancel(Entries(q'), base, q.hands[c], Entries(q), h);
  }

  lemma Cancel(a: multiset<Ptr>, base: multiset<Ptr>, h: multiset<Ptr>, b: multiset<Ptr>, h': multiset<Ptr>)
    requires a + (base + h) == b + (base + h')
    ensures a + h == b + h'
  {
    forall p ensures (a + h)[p] == (b + h')[p] {
      assert (a + (base + h))[p] == (b + (base + h'))[p];
    }
  }

  /** How each step of the executor changes the entries of the whole system. */
  ghost predicate EntriesStep(s: State, c: nat, a: Act, s': State)
    requires Inv(s.q) && Inv(s'.q) && c < |s.ctl|
  {
    match a
    case AddSwaps(t) => Entries(s'.q) == Entries(s.q) + multiset{t}
    case RunSwaps =>
      && s.ctl[c].Got?
      && if IsTask(s, s.ctl[c].t) && s.tasks[s.ctl[c].t] == Ready then Entries(s'.q) == Entries(s.q)
         else Entries(s'.q) + multiset{s.ctl[c].t} == Entries(s.q)
    case Finishes => s.ctl[c].Completed? && Entries(s'.q) + multiset{s.ctl[c].t} == Entries(s.q)
    case _ => Entries(s'.q) == Entries(s.q)
  }

  lemma OutsideEntries(s: State, c: nat, a: Act, s': State)
    requires QueuesOk(s) && QueuesOk(s') && Step(s, c, a, s') && (a.AddSwaps? || a.RunSwaps? || a.Finishes?)
    ensures EntriesStep(s, c, a, s')
  {
    assert CoreFits(s, c);
    assert SetHand(s.q, c, s.q.hands[c]) == s.q;
    var h := s.q.hands[c];
    match a
    case AddSwaps(t) => HandEdit(s.q, c, h + multiset{t}, s'.q); AddOne(Entries(s'.q), h, Entries(s.q), t);
    case Finishes => HandEdit(s.q, c, h - multiset{s.ctl[c].t}, s'.q); DropOne(Entries(s'.q), Entries(s.q), s.ctl[c].t);
    case RunSwaps =>
      if s.tasks[s.ctl[c].t] != Ready {
        HandEdit(s.q, c, h - multiset{s.ctl[c].t}, s'.q);
        DropOne(Entries(s'.q), Entries(s.q), s.ctl[c].t);
      }
  }

  lemma AddOne(a: multiset<Ptr>, h: multiset<Ptr>, b: multiset<Ptr>, t: Ptr)
    requires a + h == b + (h + multiset{t})
    ensures a == b + multiset{t}
  {
    forall p ensures a[p] == (b + multiset{t})[p] {
      assert (a + h)[p] == (b + (h + multiset{t}))[p];
    }
  }

  lemma DropOne(a: multiset<Ptr>, b: multiset<Ptr>, t: Ptr)
    requires a + multiset{t} == b + (multiset{t} - multiset{t})
    ensures a + multiset{t} == b
  {
    assert multiset{t} - multiset{t} == multiset{};
  }

  predicate AroundAQueue(a: Act) { a.Queue? || a.Returns? || a.CallPush? || a.CallPop? || a.CallSteal? }

  /** Only an `extend` drops entries, and no core is ever inside one. */
  lemma NothingGetsLost(s: State, c: nat, a: Act, s': State)
    requires QueuesOk(s) && Step(s, c, a, s')
    ensures s'.q.lost == s.q.lost
  {
    hide QueuesOk, Inv, L.Disciplined, L.Timely;
    ActsOn(s, c, a, s');
    FitsAt(s, c);
    hide RoomOk;
    match a
    case Queue(qa) => StepLosesNothing(s.q, c, qa, s'.q);
    case CallPush => StepLosesNothing(s.q, c, L.Start(L.DoPush(s.ctl[c].t)), s'.q);
    case CallPop => StepLosesNothing(s.q, c, L.Start(L.DoPop), s'.q);
    case CallSteal => StepLosesNothing(s.q, c, L.Start(L.DoSteal(s.ctl[c].id, true)), s'.q);
    case Returns => StepLosesNothing(s.q, c, L.Return, s'.q);
    case _ =>
  }

  lemma StepLosesNothing(q: L.State, c: nat, a: L.Act, q': L.State)
    requires L.Step(q, c, a, q') && (a.Return? ==> !(q.pcs[c].Done? && q.pcs[c].result.Extended?))
    ensures q'.lost == q.lost
  {
  }

  lemma QueueEntries(s: State, c: nat, a: Act, s': State)
    requires QueuesOk(s) && QueuesOk(s') && Step(s, c, a, s') && AroundAQueue(a)
    ensures Entries(s'.q) == Entries(s.q)
  {
    NothingGetsLost(s, c, a, s');
    QueueTotal(s, c, a, s');
    SameRest(Entries(s.q), Entries(s'.q), s.q.lost);
  }

  lemma SameRest(a: multiset<Ptr>, b: multiset<Ptr>, l: multiset<Ptr>)
    requires a + l == b + l
    ensures a == b
  {
    forall p ensures a[p] == b[p] { assert (a + l)[p] == (b + l)[p]; }
  }

  lemma QueueTotal(s: State, c: nat, a: Act, s': State)
    requires QueuesOk(s) && QueuesOk(s') && Step(s, c, a, s') && AroundAQueue(a)
    ensures C.Total(s'.q) == C.Total(s.q)
  {
    match a
    case Queue(qa) =>
      QueueStepIsDisciplined(s, c, qa, s');
      C.StepConserves(s.q, L.Label(c, qa), s'.q);
    case Returns => C.StepConserves(s.q, L.Label(c, L.Return), s'.q);
    case CallPush => C.StepConserves(s.q, L.Label(c, L.Start(L.DoPush(s.ctl[c].t))), s'.q);
    case CallPop => C.StepConserves(s.q, L.Label(c, L.Start(L.DoPop)), s'.q);
    case CallSteal => C.StepConserves(s.q, L.Label(c, L.Start(L.DoSteal(s.ctl[c].id, true))), s'.q);
  }

  /** Entries are made by `add` and end in `run_task` only: no queue step, no
      steal and no requeue creates, copies or loses one. */
  lemma EntriesMove(s: State, c: nat, a: Act, s': State)
    requires QueuesOk(s) && Step(s, c, a, s')
    ensures QueuesOk(s') && EntriesStep(s, c, a, s')
  {
    QueuesKeep(s, c, a, s');
    if a.AddSwaps? || a.RunSwaps? || a.Finishes? {
      OutsideEntries(s, c, a, s');
    } else if AroundAQueue(a) {
      QueueEntries(s, c, a, s');
    } else {
      assert s'.q == s.q;
    }
  }

  /** Which tasks a step makes ready. */
  lemma NewlyReady(s: State, c: nat, a: Act, s': State, t: Ptr)
    requires Step(s, c, a, s') && IsTask(s', t) && s'.tasks[t] == Ready
    ensures |s'.tasks| == |s.tasks|
    ensures s.tasks[t] == Ready || a == AddSwaps(t) || (a.StoresReady? && s.ctl[c] == Parked(t))
    ensures a.RunSwaps? ==> s.ctl[c].t != t || s.tasks[t] != Ready
    ensures a.Finishes? ==> s.ctl[c].t != t || s.tasks[t] != Running
  {
  }

  lemma StillReady(s: State, c: nat, a: Act, s': State, t: Ptr)
    requires QueuesOk(s) && TasksOk(s) && EntriesOk(s) && Step(s, c, a, s')
    requires QueuesOk(s') && EntriesStep(s, c, a, s')
    requires IsTask(s', t) && s'.tasks[t] == Ready
    ensures t in Entries(s'.q)
  {
    NewlyReady(s, c, a, s', t);
    if a.StoresReady? && s.ctl[c] == Parked(t) {
      assert CoreFits(s, c);
      SumContains(C.Bags(s.q), c);
      assert C.Bags(s.q)[c] == C.CoreBag(s.q, c);
      assert t in C.CoreBag(s.q, c);
    } else if a.Finishes? && s.ctl[c].t == t {
      assert RunsTask(s.ctl[c], t);
    } else if s.tasks[t] == Ready {
      assert t in Entries(s.q);
    }
  }

  lemma EntriesKeep(s: State, c: nat, a: Act, s': State)
    requires QueuesOk(s) && TasksOk(s) && EntriesOk(s) && Step(s, c, a, s')
    ensures QueuesOk(s') && EntriesOk(s')
  {
    EntriesMove(s, c, a, s');
    forall t | IsTask(s', t) && s'.tasks[t] == Ready ensures t in Entries(s'.q) {
      StillReady(s, c, a, s', t);
    }
    StillValid(s, c, a, s');
  }

  lemma SameTasks(s: State, c: nat, a: Act, s': State)
    requires Step(s, c, a, s')
    ensures c < |s.ctl| && |s'.tasks| == |s.tasks| && (a.AddSwaps? ==> IsTask(s, a.t))
  {
  }

  lemma StillValid(s: State, c: nat, a: Act, s': State)
    requires Inv(s.q) && EntriesOk(s) && Step(s, c, a, s') && Inv(s'.q) && EntriesStep(s, c, a, s')
    ensures forall p :: p in Entries(s'.q) ==> IsTask(s', p)
  {
    SameTasks(s, c, a, s');
    forall p | p in Entries(s'.q) ensures IsTask(s', p) {
      if !(a.AddSwaps? && a.t == p) { assert p in Entries(s.q); }
    }
  }

  // ----- runs -----

  datatype Move = Move(core: nat, act: Act)

  ghost predicate IsRun(ss: seq<State>, ms: seq<Move>) {
    && |ss| == |ms| + 1 && Init(ss[0])
    && forall i {:trigger ms[i]} :: 0 <= i < |ms| ==> Step(ss[i], ms[i].core, ms[i].act, ss[i + 1])
  }

  ghost predicate AllOk(s: State) {
    QueuesOk(s) && TasksOk(s) && ClaimsOk(s) && EntriesOk(s) && s.q.lost == multiset{}
  }

  lemma NoEntriesYet(s: State)
    requires Init(s)
    ensures Inv(s.q) && Entries(s.q) == multiset{}
  {
    InitInv(s.q);
    forall c | 0 <= c < |s.q.qs| ensures C.CoreBag(s.q, c) == multiset{} {
      assert s.q.qs[c] == L.EmptyRing(s.q.n);
    }
    hide C.CoreBag;
    SumOfEmpty(C.Bags(s.q));
  }

  lemma InitAll(s: State)
    requires Init(s)
    ensures AllOk(s)
  {
    NoEntriesYet(s);
    hide Entries;
    InitOk(s);
  }

  lemma RunStep(ss: seq<State>, ms: seq<Move>, i: nat)
    requires IsRun(ss, ms)
    ensures |ss| == |ms| + 1 && Init(ss[0])
    ensures i < |ms| ==> Step(ss[i], ms[i].core, ms[i].act, ss[i + 1])
  {
  }

  lemma StepOk(s: State, m: Move, s': State)
    requires AllOk(s) && Step(s, m.core, m.act, s')
    ensures AllOk(s')
  {
    hide Step, QueuesOk, TasksOk, ClaimsOk, EntriesOk;
    NothingGetsLost(s, m.core, m.act, s');
    EntriesKeep(s, m.core, m.act, s');
    TasksKeep(s, m.core, m.act, s');
    ClaimsKeep(s, m.core, m.act, s');
  }

  lemma {:induction false} RunOk(ss: seq<State>, ms: seq<Move>, i: nat)
    requires IsRun(ss, ms) && i < |ss|
    ensures AllOk(ss[i])
  {
    hide *;
    if i == 0 {
      RunStep(ss, ms, 0);
      InitAll(ss[0]);
    } else {
      RunOk(ss, ms, i - 1);
      RunStep(ss, ms, i - 1);
      StepOk(ss[i - 1], ms[i - 1], ss[i]);
    }
  }

  /** The requeue push, whose result the run loop ignores, never fails: in no
      reachable state can it be refused, and its write misses every booked slot. */
  lemma RequeueNeverFails(ss: seq<State>, ms: seq<Move>, i: nat, c: nat)
    requires IsRun(ss, ms) && i < |ss| && Shape(ss[i]) && c < |ss[i].ctl| && ss[i].ctl[c].Requeueing?
    ensures var q, pc := ss[i].q.qs[c], ss[i].q.pcs[c];
      && pc != L.Done(L.Rejected(ss[i].ctl[c].t))
      && (forall q' :: !L.PushRejectsStep(ss[i].q, c, q'))
      && (pc.LoadedWord? ==> q.Tail() + 1 <= q.released + ss[i].q.n)
  {
    RunOk(ss, ms, i);
    var s := ss[i];
    assert CoreFits(s, c) && CoreOk(s.q, c);
    var pc := s.q.pcs[c];
    if pc.LoadedWord? { LifoSafety.LenExact(pc.push, pc.pop, pc.booked); }
  }

  /** Every queue step of an executor run is a disciplined step, between states
      that satisfy the queue invariant. */
  lemma QueuesAreDisciplined(ss: seq<State>, ms: seq<Move>, i: nat)
    requires IsRun(ss, ms) && i < |ms| && ms[i].act.Queue?
    ensures L.Next(ss[i].q, L.Label(ms[i].core, ms[i].act.a), ss[i + 1].q) && Inv(ss[i].q) && Inv(ss[i + 1].q)
  {
    RunOk(ss, ms, i);
    QueueStepIsDisciplined(ss[i], ms[i].core, ms[i].act.a, ss[i + 1]);
  }

  /** No write of an executor run hits the slot of an entry that a thief has
      booked and not released, nor of a published one. */
  lemma NoWriteHitsABookedSlot(ss: seq<State>, ms: seq<Move>, i: nat, j: int)
    requires IsRun(ss, ms) && i < |ms| && ms[i].act.Queue? && LifoRuns.Writes(ms[i].act.a)
    ensures var q, c := ss[i].q, ms[i].core;
      && L.Shape(q) && q.n > 0 && c < |q.qs| == |q.pcs| && LifoRuns.WriterReady(q.pcs[c], ms[i].act.a)
      && (q.qs[c].released <= j < q.qs[c].Tail() ==>
            Slot(LifoRuns.WritePosition(q, c, ms[i].act.a), q.n) != Slot(j, q.n))
  {
    QueuesAreDisciplined(ss, ms, i);
    var q, l := ss[i].q, L.Label(ms[i].core, ms[i].act.a);
    hide L.Next, L.Step, IsRun;
    LifoRuns.WriteInRoom(q, l, ss[i + 1].q);
    if q.qs[l.core].released <= j < q.qs[l.core].Tail() {
      SlotsDiffer(j, LifoRuns.WritePosition(q, l.core, l.act), q.n);
    }
  }

  /** At most one core polls a task, and a polled task is marked running. */
  lemma AtMostOnePoller(ss: seq<State>, ms: seq<Move>, i: nat, c: nat, d: nat, t: Ptr)
    requires IsRun(ss, ms) && i < |ss| && c < |ss[i].ctl| && d < |ss[i].ctl|
    requires ss[i].ctl[c] == Polling(t) && RunsTask(ss[i].ctl[d], t)
    ensures c == d && IsTask(ss[i], t) && ss[i].tasks[t] == Running
  {
    RunOk(ss, ms, i);
    assert RunsTask(ss[i].ctl[c], t);
  }

  /** A ready task is never forgotten: some queue, transit window or hand holds it. */
  lemma ReadyHasAnEntry(ss: seq<State>, ms: seq<Move>, i: nat, t: Ptr)
    requires IsRun(ss, ms) && i < |ss| && IsTask(ss[i], t) && ss[i].tasks[t] == Ready
    ensures Inv(ss[i].q) && t in Entries(ss[i].q) && ss[i].q.lost == multiset{}
  {
    RunOk(ss, ms, i);
  }

  lemma UnreachableStays(s: State, c: nat, a: Act, s': State, t: Ptr)
    requires TasksOk(s) && Step(s, c, a, s') && IsTask(s, t) && s.tasks[t] == Unreachable
    ensures IsTask(s', t) && s'.tasks[t] == Unreachable
  {
    assert !RunsTask(s.ctl[c], t);
  }

  /** A finished task is never polled again, however many entries of it are left. */
  lemma {:induction false} FinishedIsNeverPolledAgain(ss: seq<State>, ms: seq<Move>, i: nat, j: nat, t: Ptr, c: nat)
    requires IsRun(ss, ms) && i <= j < |ss| && IsTask(ss[i], t) && ss[i].tasks[t] == Unreachable
    ensures IsTask(ss[j], t) && ss[j].tasks[t] == Unreachable
    ensures c < |ss[j].ctl| ==> ss[j].ctl[c] != Polling(t)
    decreases j
  {
    hide AllOk;
    if i < j {
      FinishedIsNeverPolledAgain(ss, ms, i, j - 1, t, c);
      TasksOkAt(ss, ms, j - 1);
      assert Step(ss[j - 1], ms[j - 1].core, ms[j - 1].act, ss[j]);
      hide Step, TasksOk;
      UnreachableStays(ss[j - 1], ms[j - 1].core, ms[j - 1].act, ss[j], t);
    }
    TasksOkAt(ss, ms, j);
    UnreachableIsIdle(ss[j], t, c);
  }

  lemma TasksOkAt(ss: seq<State>, ms: seq<Move>, i: nat)
    requires IsRun(ss, ms) && i < |ss|
    ensures TasksOk(ss[i])
  {
    RunOk(ss, ms, i);
  }

  lemma UnreachableIsIdle(s: State, t: Ptr, c: nat)
    requires TasksOk(s) && IsTask(s, t) && s.tasks[t] == Unreachable
    ensures c < |s.ctl| ==> s.ctl[c] != Polling(t)
  {
    assert c < |s.ctl| ==> !RunsTask(s.ctl[c], t);
  }

  // ----- duplicates -----

  /** How many of the first `i` moves add an entry of `t`. */
  function Added(ms: seq<Move>, i: nat, t: Ptr): nat
    requires i <= |ms|
  {
    if i == 0 then 0 else Added(ms, i - 1, t) + if ms[i - 1].act == AddSwaps(t) then 1 else 0
  }

  /** The move ends an entry of `t`: it drops it unpolled, or its poll was ready. */
  predicate Ends(s: State, m: Move, t: Ptr) {
    && m.core < |s.ctl|
    && ((m.act.RunSwaps? && s.ctl[m.core] == Got(t) && !(IsTask(s, t) && s.tasks[t] == Ready))
        || (m.act.Finishes? && s.ctl[m.core] == Completed(t)))
  }

  function Ended(ss: seq<State>, ms: seq<Move>, i: nat, t: Ptr): nat
    requires i <= |ms| < |ss|
  {
    if i == 0 then 0 else Ended(ss, ms, i - 1, t) + if Ends(ss[i - 1], ms[i - 1], t) then 1 else 0
  }

  lemma StepCounts(s: State, m: Move, s': State, t: Ptr)
    requires QueuesOk(s) && Step(s, m.core, m.act, s')
    ensures QueuesOk(s')
    ensures Entries(s'.q)[t] + (if Ends(s, m, t) then 1 else 0)
         == Entries(s.q)[t] + (if m.act == AddSwaps(t) then 1 else 0)
  {
    hide Step, QueuesOk, Entries;
    var c, a := m.core, m.act;
    EntriesMove(s, c, a, s');
    QueuesInv(s);
    QueuesInv(s');
    SameTasks(s, c, a, s');
    var was, now := Entries(s.q), Entries(s'.q);
    if a.AddSwaps? {
      OneMore(now, was, a.t, t);
    } else if a.Finishes? || (a.RunSwaps? && now != was) {
      OneMore(was, now, s.ctl[c].t, t);
    }
  }

  lemma OneMore(x: multiset<Ptr>, y: multiset<Ptr>, e: Ptr, t: Ptr)
    requires x == y + multiset{e} || y + multiset{e} == x
    ensures x[t] == y[t] + if e == t then 1 else 0
  {
  }

  lemma QueuesInv(s: State)
    requires QueuesOk(s)
    ensures Inv(s.q)
  {
  }

  /** An added entry stays, in a queue, in transit or in a hand, until it ends: the
      number of entries of `t` is that of its adds less those that have ended,
      however often they were popped, stolen, polled and put back. */
  lemma {:induction false} EntriesAreAddsLessEnds(ss: seq<State>, ms: seq<Move>, i: nat, t: Ptr)
    requires IsRun(ss, ms) && i < |ss|
    ensures Inv(ss[i].q) && Entries(ss[i].q)[t] + Ended(ss, ms, i, t) == Added(ms, i, t)
  {
    hide IsRun, Init, Step, QueuesOk, Entries, Ends;
    RunOk(ss, ms, i);
    RunStep(ss, ms, if i > 0 then i - 1 else 0);
    if i == 0 {
      NoEntriesYet(ss[0]);
    } else {
      EntriesAreAddsLessEnds(ss, ms, i - 1, t);
      RunOk(ss, ms, i - 1);
      StepCounts(ss[i - 1], ms[i - 1], ss[i], t);
      QueuesInv(ss[i]);
    }
  }

  /** The swap of `run_task` drops a popped entry unpolled if and only if its task
      is not ready at that moment; otherwise the core goes on to poll it. */
  lemma DroppedExactlyWhenNotReady(ss: seq<State>, ms: seq<Move>, i: nat)
    requires IsRun(ss, ms) && i < |ms| && ms[i].act.RunSwaps?
    ensures var s, s', c := ss[i], ss[i + 1], ms[i].core;
      && Inv(s.q) && Inv(s'.q) && c < |s.ctl| == |s'.ctl| && s.ctl[c].Got? && IsTask(s, s.ctl[c].t)
      && var t := s.ctl[c].t;
         && (s.tasks[t] != Ready <==> s'.ctl[c] == Loop)
         && (s.tasks[t] != Ready <==> Entries(s'.q)[t] + 1 == Entries(s.q)[t])
         && (s.tasks[t] == Ready <==> s'.ctl[c] == Polling(t))
  {
    RunOk(ss, ms, i);
    assert Step(ss[i], ms[i].core, ms[i].act, ss[i + 1]);
    StepCounts(ss[i], ms[i], ss[i + 1], ss[i].ctl[ms[i].core].t);
  }

  /** Duplicates do not collapse while their task is ready: popping one of them and
      polling it pending leaves all tasks and all queues as they were, with that
      entry to go back. */
  lemma APendingPollKeepsItsDuplicates(s0: State, s1: State, s2: State, s3: State, c: nat, t: Ptr)
    requires Step(s0, c, RunSwaps, s1) && Step(s1, c, PollPending, s2) && Step(s2, c, StoresReady, s3)
    requires s0.ctl[c] == Got(t) && IsTask(s0, t) && s0.tasks[t] == Ready
    ensures s3.tasks == s0.tasks && s3.q == s0.q && s3.claims == s0.claims
    ensures s3.ctl == s0.ctl[c := Requeue(t)]
  {
    assert s0.tasks[t := Running][t := Ready] == s0.tasks;
  }

  /** A pool slot is handed out at most once. */
  lemma SlotsAreHandedOutOnce(ss: seq<State>, ms: seq<Move>, i: nat, j: nat, k: nat)
    requires IsRun(ss, ms) && i < |ss| && j < k < |ss[i].claims|
    ensures ss[i].claims[j] != ss[i].claims[k]
  {
    RunOk(ss, ms, i);
  }
}
