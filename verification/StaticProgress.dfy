/** No core of the static executor hangs: in every reachable state each core that has
    not panicked has a step of its own to make. */
module StaticProgress {
  import opened Ring
  import opened BagSums
  import opened LifoInvariant
  import opened StaticExecutor
  import opened StaticInvariant
  import opened StaticRuns
  import L = LifoMachine
  import C = LifoConservation
  import P = LifoProgress

  /** What a core holds is a task. */
  lemma HandIsTask(s: State, c: nat, t: Ptr)
    requires Inv(s.q) && EntriesOk(s) && c < |s.q.qs| && t in s.q.hands[c]
    ensures IsTask(s, t)
  {
    SumContains(C.Bags(s.q), c);
    assert C.Bags(s.q)[c] == C.CoreBag(s.q, c);
    assert t in C.CoreBag(s.q, c);
  }

  // ----- a core looks at siblings only -----

  predicate InRange(x: Ctl, cores: nat) { (x.Looking? ==> x.id <= cores) && (x.Stealing? ==> x.id < cores) }

  lemma StaysInRange(s: State, d: nat, a: Act, s': State, c: nat)
    requires Step(s, d, a, s') && c < |s.ctl| && InRange(s.ctl[c], |s.ctl|)
    ensures |s'.ctl| == |s.ctl| && InRange(s'.ctl[c], |s'.ctl|)
  {
  }

  lemma {:induction false} LooksAtSiblings(ss: seq<State>, ms: seq<Move>, i: nat, c: nat)
    requires IsRun(ss, ms) && i < |ss| && c < |ss[i].ctl|
    ensures InRange(ss[i].ctl[c], |ss[i].ctl|)
  {
    hide Step, Init, InRange;
    RunStep(ss, ms, if i > 0 then i - 1 else 0);
    if i == 0 {
      StartsInSetup(ss[0], c);
    } else {
      SameNumber(ss[i - 1], ms[i - 1].core, ms[i - 1].act, ss[i]);
      LooksAtSiblings(ss, ms, i - 1, c);
      StaysInRange(ss[i - 1], ms[i - 1].core, ms[i - 1].act, ss[i], c);
    }
  }

  lemma SameNumber(s: State, d: nat, a: Act, s': State)
    requires Step(s, d, a, s')
    ensures |s'.ctl| == |s.ctl|
  {
  }

  lemma StartsInSetup(s: State, c: nat)
    requires Init(s) && c < |s.ctl|
    ensures InRange(s.ctl[c], |s.ctl|)
  {
  }

  // ----- a step for every control point -----

  predicate InQueue(x: Ctl) { x.Adding? || x.Popping? || x.Stealing? || x.Requeueing? }

  lemma QueueMoves(s: State, c: nat) returns (a: Act, s': State)
    requires QueuesOk(s) && c < |s.ctl| && InQueue(s.ctl[c]) && L.Timely(s.q, c)
    requires s.ctl[c].Adding? ==> s.q.qs[c].Tail() < s.q.qs[c].released + s.q.n
    ensures Step(s, c, a, s') && !a.Claim?
  {
    FitsAt(s, c);
    var pc := s.q.pcs[c];
    hide QueuesOk, Inv, RoomOk, L.Step, P.StepsLeft;
    if pc.Done? {
      ReturnResult(s, c);
      a := Returns;
      var q' := AfterReturn(s.q, c);
      s' := SetCtl(s, c, StaticExecutor.After(s.ctl[c], pc.result)).(q := q');
    } else {
      InAnOperation(s.ctl[c], pc, s.q.hands[c]);
      var qa, q' := P.NoCallIsStuck(s.q, c, 1);
      a, s' := Queue(qa), s.(q := q');
    }
  }

  lemma InAnOperation(x: Ctl, pc: L.Pc, h: multiset<Ptr>)
    requires CtlFits(x, pc, h) && InQueue(x)
    ensures pc != L.Idle
  {
  }

  function AfterReturn(q: L.State, c: nat): L.State
    requires L.Shape(q) && c < |q.qs| && q.pcs[c].Done?
  {
    var t := L.SetPc(q, c, L.Idle);
    match q.pcs[c].result
    case Rejected(item) => t.(hands := q.hands[c := q.hands[c] + multiset{item}])
    case Popped(item) => t.(hands := q.hands[c := q.hands[c] + multiset{item}])
    case StolePopped(item, _) => t.(hands := q.hands[c := q.hands[c] + multiset{item}])
    case Extended(left) => t.(lost := q.lost + multiset(left))
    case _ => t
  }

  lemma ReturnResult(s: State, c: nat)
    requires Shape(s) && c < |s.ctl| && s.q.pcs[c].Done?
    ensures L.Step(s.q, c, L.Return, AfterReturn(s.q, c))
  {
  }

  lemma CallMoves(s: State, c: nat) returns (a: Act, s': State)
    requires QueuesOk(s) && c < |s.ctl|
    requires var x := s.ctl[c];
      x.AddCall? || x.Requeue? || x == Loop || (x.Looking? && x.id < |s.ctl| && x.id != c)
    ensures Step(s, c, a, s') && !a.Claim?
  {
    FitsAt(s, c);
    hide QueuesOk, Inv, RoomOk;
    var x, q := s.ctl[c], s.q.qs[c];
    if x == Loop {
      a, s' := CallPop, SetCtl(s, c, Popping).(q := L.SetPc(s.q, c, L.PopWord(q.pop, q.booked)));
    } else if x.Looking? {
      a := CallSteal;
      s' := SetCtl(s, c, Stealing(x.id)).(q := L.SetPc(s.q, c, L.LoadedPush(L.Steal(x.id, true), q.push)));
    } else {
      a := CallPush;
      var q' := L.SetPc(s.q, c, L.LoadedPush(L.Push(x.t), q.push))
        .(hands := s.q.hands[c := s.q.hands[c] - multiset{x.t}]);
      s' := SetCtl(s, c, if x.AddCall? then Adding(x.t) else Requeueing(x.t)).(q := q');
    }
  }

  lemma HoldsTask(s: State, c: nat)
    requires AllOk(s) && c < |s.ctl|
    requires var x := s.ctl[c]; x.Got? || x.Polling? || x.Completed? || x.Parked?
    ensures Shape(s) && IsTask(s, s.ctl[c].t)
  {
    hide Inv, EntriesOk, TasksOk, ClaimsOk, RoomOk;
    FitsAt(s, c);
    HandIsTask(s, c, s.ctl[c].t);
  }

  lemma TaskMoves(s: State, c: nat) returns (a: Act, s': State)
    requires Shape(s) && c < |s.ctl|
    requires var x := s.ctl[c]; (x.Got? || x.Polling? || x.Completed? || x.Parked?) && IsTask(s, x.t)
    ensures Step(s, c, a, s') && !a.Claim?
  {
    var x := s.ctl[c];
    if x.Polling? {
      a, s' := PollPending, SetCtl(s, c, Parked(x.t));
    } else if x.Completed? {
      a := Finishes;
      s' := SetCtl(s, c, Loop).(
        tasks := if s.tasks[x.t] == Running then s.tasks[x.t := Unreachable] else s.tasks,
        q := SetHand(s.q, c, s.q.hands[c] - multiset{x.t}));
    } else if x.Parked? {
      a, s' := StoresReady, SetCtl(s, c, Requeue(x.t)).(tasks := s.tasks[x.t := Ready]);
    } else {
      a := RunSwaps;
      s' := if s.tasks[x.t] == Ready
            then SetCtl(s, c, Polling(x.t)).(tasks := s.tasks[x.t := Running])
            else SetCtl(s, c, Loop).(q := SetHand(s.q, c, s.q.hands[c] - multiset{x.t}));
    }
  }

  lemma OtherMoves(s: State, c: nat) returns (a: Act, s': State)
    requires Shape(s) && c < |s.ctl|
    requires var x := s.ctl[c]; x == Setup || x == Looking(c) || x == Looking(|s.ctl|)
    ensures Step(s, c, a, s') && !a.Claim?
  {
    var x := s.ctl[c];
    if x == Setup {
      a, s' := EnterRun, SetCtl(s, c, Loop);
    } else if x == Looking(c) {
      a, s' := SkipSelf, SetCtl(s, c, Looking(c + 1));
    } else {
      a, s' := GiveUp, SetCtl(s, c, Loop);
    }
  }

  /** In every reachable state a core that has not panicked has a step to make, on the
      schedule and with the room for adds that runs assume. */
  lemma NoCoreIsStuck(ss: seq<State>, ms: seq<Move>, i: nat, c: nat) returns (a: Act, s': State)
    requires IsRun(ss, ms) && i < |ss| && Shape(ss[i]) && c < |ss[i].ctl| && ss[i].ctl[c] != Panicked
    requires L.Timely(ss[i].q, c)
    requires var q := ss[i].q; ss[i].ctl[c].Adding? ==> q.qs[c].Tail() < q.qs[c].released + q.n
    ensures Step(ss[i], c, a, s') && !a.Claim?
  {
    RunOk(ss, ms, i);
    LooksAtSiblings(ss, ms, i, c);
    hide IsRun, Step, L.Timely, QueuesOk, TasksOk, ClaimsOk, EntriesOk;
    var s := ss[i];
    var x := s.ctl[c];
    if InQueue(x) { a, s' := QueueMoves(s, c); }
    else if x.Got? || x.Polling? || x.Completed? || x.Parked? { HoldsTask(s, c); a, s' := TaskMoves(s, c); }
    else if x == Setup || x == Looking(c) || x == Looking(|s.ctl|) { a, s' := OtherMoves(s, c); }
    else { a, s' := CallMoves(s, c); }
  }
}
