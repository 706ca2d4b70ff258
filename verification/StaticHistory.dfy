/** What the history of a run says of it: the state of every pool slot, that a ready
    poll is the last one of its task, and that a core with nothing of its own asks
    every sibling. */
module StaticHistory {
  import opened Words
  import opened Ring
  import opened LifoInvariant
  import opened StaticExecutor
  import opened StaticInvariant
  import opened StaticSafety
  import opened StaticRuns
  import L = LifoMachine
  import LifoRefinement
  import LifoRefusals

  // ----- the state of a slot -----

  /** What a step does to a slot, and nothing else does. */
  lemma SlotMoves(s: State, c: nat, a: Act, s': State, t: Ptr)
    requires Step(s, c, a, s') && IsTask(s, t)
    ensures |s'.tasks| == |s.tasks| && |s'.ctl| == |s.ctl| && c < |s.ctl|
    ensures if a == Claim(t) then s.tasks[t] == Free && s'.tasks[t] == Initialized
      else if a == AddSwaps(t) then s'.tasks[t] == if s.tasks[t] == Initialized then Ready else s.tasks[t]
      else if a.RunSwaps? && s.ctl[c] == Got(t) && s.tasks[t] == Ready then s'.tasks[t] == Running
      else if a.StoresReady? && s.ctl[c] == Parked(t) then s'.tasks[t] == Ready
      else if a.Finishes? && s.ctl[c] == Completed(t) then
        s'.tasks[t] == if s.tasks[t] == Running then Unreachable else s.tasks[t]
      else s'.tasks[t] == s.tasks[t]
    ensures s'.claims == s.claims + if a.Claim? then [a.slot] else []
  {
    if a.Claim? { } else { assert s'.claims == s.claims; }
  }

  /** Added after it was claimed. */
  ghost predicate WasAdded(ss: seq<State>, ms: seq<Move>, i: nat, t: Ptr) {
    exists k :: 0 <= k < i && k < |ms| && k < |ss| && AddsClaimed(ss[k], ms[k], t)
  }

  predicate AddsClaimed(s: State, m: Move, t: Ptr) { m.act == AddSwaps(t) && t in s.claims }

  /** A ready poll of it has been stored. */
  ghost predicate WasFinished(ss: seq<State>, ms: seq<Move>, i: nat, t: Ptr) {
    exists k :: 0 <= k < i && k < |ms| && k < |ss| && FinishesTask(ss[k], ms[k], t)
  }

  predicate FinishesTask(s: State, m: Move, t: Ptr) {
    m.act.Finishes? && m.core < |s.ctl| && s.ctl[m.core] == Completed(t)
  }

  /** The state that goes with this history, `added` and `finished` being its two facts. */
  ghost predicate SlotIs(s: State, t: Ptr, added: bool, finished: bool) {
    && IsTask(s, t)
    && (s.tasks[t] == Free <==> t !in s.claims)
    && (s.tasks[t] == Initialized <==> t in s.claims && !added)
    && (s.tasks[t] == Unreachable <==> finished)
    && (s.tasks[t] == Running <==> HasRunner(s, t))
    && (s.tasks[t] == Ready <==> added && !finished && !HasRunner(s, t))
  }

  lemma SlotStep(s: State, m: Move, s': State, t: Ptr, added: bool, finished: bool)
    requires TasksOk(s) && TasksOk(s') && Step(s, m.core, m.act, s') && SlotIs(s, t, added, finished)
    ensures SlotIs(s', t, added || AddsClaimed(s, m, t), finished || FinishesTask(s, m, t))
  {
    SlotMoves(s, m.core, m.act, s', t);
    if IsTask(s, t) {
      if s.ctl[m.core] == Completed(t) || s.ctl[m.core] == Parked(t) { assert RunsTask(s.ctl[m.core], t); }
    }
    RunningExactly(s', t);
    hide Step, TasksOk;
  }

  lemma RunningExactly(s: State, t: Ptr)
    requires TasksOk(s) && IsTask(s, t)
    ensures s.tasks[t] == Running <==> HasRunner(s, t)
  {
    if HasRunner(s, t) {
      var c :| 0 <= c < |s.ctl| && RunsTask(s.ctl[c], t);
    }
  }

  /** In every reachable state a slot is free exactly if it was never claimed,
      initialized exactly if it was claimed and not added since, running exactly if
      some core polls it, unreachable exactly if a ready poll of it was stored, and
      ready in all other cases. */
  lemma {:induction false} SlotsFollowTheirHistory(ss: seq<State>, ms: seq<Move>, i: nat, t: Ptr)
    requires IsRun(ss, ms) && i < |ss| && IsTask(ss[i], t)
    ensures SlotIs(ss[i], t, WasAdded(ss, ms, i, t), WasFinished(ss, ms, i, t))
  {
    hide Step, Init, IsTask, SlotIs, TasksOk;
    TasksOkAt(ss, ms, i);
    RunStep(ss, ms, if i > 0 then i - 1 else 0);
    if i == 0 {
      StartsFree(ss[0], t);
    } else {
      SameSlots(ss, ms, i - 1, t);
      SlotsFollowTheirHistory(ss, ms, i - 1, t);
      TasksOkAt(ss, ms, i - 1);
      SlotStep(ss[i - 1], ms[i - 1], ss[i], t, WasAdded(ss, ms, i - 1, t), WasFinished(ss, ms, i - 1, t));
      HistoryGrows(ss, ms, i - 1, t);
    }
  }

  lemma StartsFree(s: State, t: Ptr)
    requires Init(s) && IsTask(s, t)
    ensures SlotIs(s, t, false, false)
  {
  }

  lemma SameSlots(ss: seq<State>, ms: seq<Move>, i: nat, t: Ptr)
    requires IsRun(ss, ms) && i < |ms|
    ensures IsTask(ss[i], t) <==> IsTask(ss[i + 1], t)
  {
    RunStep(ss, ms, i);
    SameTasks(ss[i], ms[i].core, ms[i].act, ss[i + 1]);
  }

  lemma HistoryGrows(ss: seq<State>, ms: seq<Move>, i: nat, t: Ptr)
    requires i < |ms| < |ss|
    ensures WasAdded(ss, ms, i + 1, t) <==> WasAdded(ss, ms, i, t) || AddsClaimed(ss[i], ms[i], t)
    ensures WasFinished(ss, ms, i + 1, t) <==> WasFinished(ss, ms, i, t) || FinishesTask(ss[i], ms[i], t)
  {
  }

  // ----- after a ready poll -----

  /** The ready poll is not stored yet, or it is. */
  predicate IsOver(s: State, c: nat, t: Ptr) {
    && IsTask(s, t) && c < |s.ctl|
    && (s.tasks[t] == Unreachable || (s.tasks[t] == Running && s.ctl[c] == Completed(t)))
  }

  lemma StaysOver(s: State, m: Move, s': State, c: nat, t: Ptr)
    requires TasksOk(s) && Step(s, m.core, m.act, s') && IsOver(s, c, t)
    ensures IsOver(s', c, t)
  {
    SlotMoves(s, m.core, m.act, s', t);
    if s.tasks[t] == Unreachable {
      UnreachableStays(s, m.core, m.act, s', t);
    } else {
      assert RunsTask(s.ctl[c], t);
      CompletedStays(s, m.core, m.act, s', c);
      if m.core != c { assert !RunsTask(s.ctl[m.core], t); }
    }
  }

  lemma CompletedStays(s: State, d: nat, a: Act, s': State, c: nat)
    requires Step(s, d, a, s') && c < |s.ctl| && s.ctl[c].Completed?
    ensures |s'.ctl| == |s.ctl| && (s'.ctl[c] == s.ctl[c] || (d == c && a.Finishes?))
  {
  }

  lemma OverIsNotPolled(s: State, c: nat, t: Ptr, d: nat)
    requires TasksOk(s) && IsOver(s, c, t)
    ensures d < |s.ctl| ==> s.ctl[d] != Polling(t)
  {
    if s.tasks[t] == Running { assert RunsTask(s.ctl[c], t); }
    if d < |s.ctl| && s.ctl[d] == Polling(t) { assert RunsTask(s.ctl[d], t); }
  }

  /** After a ready poll of a task, no core ever polls it again, whatever entries of
      it are left or added; once the poll is stored its slot is unreachable for good. */
  lemma {:induction false} AReadyPollIsTheLast(ss: seq<State>, ms: seq<Move>, i: nat, j: nat, t: Ptr, d: nat)
    requires IsRun(ss, ms) && i < j < |ss| && ms[i].act.PollReady?
    requires ms[i].core < |ss[i].ctl| && ss[i].ctl[ms[i].core] == Polling(t)
    ensures IsTask(ss[j], t) && ms[i].core < |ss[j].ctl|
    ensures ss[j].tasks[t] == Unreachable || (ss[j].tasks[t] == Running && ss[j].ctl[ms[i].core] == Completed(t))
    ensures d < |ss[j].ctl| ==> ss[j].ctl[d] != Polling(t)
    decreases j
  {
    hide Step, Init, TasksOk;
    var c := ms[i].core;
    RunStep(ss, ms, j - 1);
    TasksOkAt(ss, ms, j - 1);
    TasksOkAt(ss, ms, j);
    if j == i + 1 {
      ReadyPoll(ss[i], c, ss[j], t);
    } else {
      AReadyPollIsTheLast(ss, ms, i, j - 1, t, d);
      StaysOver(ss[j - 1], ms[j - 1], ss[j], c, t);
    }
    OverIsNotPolled(ss[j], c, t, d);
  }

  lemma ReadyPoll(s: State, c: nat, s': State, t: Ptr)
    requires TasksOk(s) && Step(s, c, PollReady, s') && s.ctl[c] == Polling(t)
    ensures IsOver(s', c, t)
  {
    assert RunsTask(s.ctl[c], t);
  }

  /** The store that ends a ready poll makes the slot unreachable, for good. */
  lemma FinishedForGood(ss: seq<State>, ms: seq<Move>, i: nat, j: nat, t: Ptr, d: nat)
    requires IsRun(ss, ms) && i < j < |ss| && FinishesTask(ss[i], ms[i], t)
    ensures IsTask(ss[j], t) && ss[j].tasks[t] == Unreachable
    ensures d < |ss[j].ctl| ==> ss[j].ctl[d] != Polling(t)
  {
    RunStep(ss, ms, i);
    TasksOkAt(ss, ms, i);
    hide Init, IsRun;
    Stored(ss[i], ms[i].core, ss[i + 1], t);
    FinishedIsNeverPolledAgain(ss, ms, i + 1, j, t, d);
  }

  lemma Stored(s: State, c: nat, s': State, t: Ptr)
    requires TasksOk(s) && Step(s, c, Finishes, s') && s.ctl[c] == Completed(t)
    ensures IsTask(s', t) && s'.tasks[t] == Unreachable
  {
    assert RunsTask(s.ctl[c], t);
  }

  // ----- an empty core asks every sibling -----

  /** How a core gets on from a pop to the next. */
  lemma LooksOn(s: State, d: nat, a: Act, s': State, c: nat)
    requires Step(s, d, a, s') && c < |s.ctl|
    requires s.ctl[c].Popping? || s.ctl[c].Looking? || s.ctl[c].Stealing? || s.ctl[c] == Loop
    ensures c < |s'.ctl| == |s.ctl|
    ensures var x, x' := s.ctl[c], s'.ctl[c];
      x' == x ||
      match x
      case Popping => x'.Got? || x' == Looking(0)
      case Looking(id) =>
        || (id == c && x' == Looking(id + 1))
        || (d == c && a == CallSteal && x' == Stealing(id))
        || (id == |s.ctl| && x' == Loop)
      case Stealing(id) => x'.Got? || x' == Looking(id + 1)
      case _ => d == c && a == CallPop
  {
    if a.Returns? && d == c { }
  }

  ghost predicate Asked(ss: seq<State>, ms: seq<Move>, i: nat, k: nat, c: nat, id: nat) {
    exists m :: i < m < k && m < |ms| && m < |ss| && Asks(ss[m], ms[m], c, id)
  }

  predicate Asks(s: State, m: Move, c: nat, id: nat) {
    m == Move(c, CallSteal) && c < |s.ctl| && s.ctl[c] == Looking(id)
  }

  ghost predicate HasGot(ss: seq<State>, i: nat, k: nat, c: nat) {
    exists m :: i < m <= k && m < |ss| && c < |ss[m].ctl| && ss[m].ctl[c].Got?
  }

  ghost predicate AskedBelow(ss: seq<State>, ms: seq<Move>, i: nat, k: nat, c: nat, n: nat) {
    forall id :: 0 <= id < n && id != c ==> Asked(ss, ms, i, k, c, id)
  }

  /** Since its pop the core has got a task, or it has asked all it has looked at. */
  ghost predicate OnItsWay(ss: seq<State>, ms: seq<Move>, i: nat, k: nat, c: nat)
    requires k < |ss| && c < |ss[k].ctl|
  {
    || HasGot(ss, i, k, c)
    || match ss[k].ctl[c]
       case Popping => true
       case Looking(id) => AskedBelow(ss, ms, i, k, c, id)
       case Stealing(id) => AskedBelow(ss, ms, i, k, c, id + 1)
       case Loop => AskedBelow(ss, ms, i, k, c, |ss[k].ctl|)
       case _ => false
  }

  ghost predicate PopsNotBetween(ms: seq<Move>, i: nat, k: nat, c: nat) {
    forall m :: i < m < k && m < |ms| ==> ms[m] != Move(c, CallPop)
  }

  lemma MemoryGrows(ss: seq<State>, ms: seq<Move>, i: nat, k: nat, c: nat, n: nat)
    requires i < k < |ms| < |ss|
    ensures HasGot(ss, i, k, c) ==> HasGot(ss, i, k + 1, c)
    ensures c < |ss[k + 1].ctl| && ss[k + 1].ctl[c].Got? ==> HasGot(ss, i, k + 1, c)
    ensures AskedBelow(ss, ms, i, k, c, n) ==> AskedBelow(ss, ms, i, k + 1, c, n)
    ensures AskedBelow(ss, ms, i, k, c, n) && (n == c || Asks(ss[k], ms[k], c, n)) ==>
      AskedBelow(ss, ms, i, k + 1, c, n + 1)
  {
    hide Asks;
    if AskedBelow(ss, ms, i, k, c, n) {
      var next := k + 1;
      forall id | 0 <= id < n && id != c ensures Asked(ss, ms, i, next, c, id) {
        assert Asked(ss, ms, i, k, c, id);
      }
    }
  }

  lemma StaysOnItsWay(ss: seq<State>, ms: seq<Move>, i: nat, k: nat, c: nat)
    requires k < |ms| < |ss| && i < k && Step(ss[k], ms[k].core, ms[k].act, ss[k + 1]) && ms[k] != Move(c, CallPop)
    requires c < |ss[k].ctl| && OnItsWay(ss, ms, i, k, c)
    ensures c < |ss[k + 1].ctl| && OnItsWay(ss, ms, i, k + 1, c)
  {
    hide Step, HasGot, AskedBelow;
    SameCores(ss[k], ms[k].core, ms[k].act, ss[k + 1]);
    var x := ss[k].ctl[c];
    var n := if x.Looking? then x.id else if x.Stealing? then x.id + 1 else |ss[k].ctl|;
    MemoryGrows(ss, ms, i, k, c, n);
    if !HasGot(ss, i, k, c) {
      LooksOn(ss[k], ms[k].core, ms[k].act, ss[k + 1], c);
      NothingBelow(ss, ms, i, k + 1, c);
    }
  }

  lemma SameCores(s: State, d: nat, a: Act, s': State)
    requires Step(s, d, a, s')
    ensures |s'.ctl| == |s.ctl|
  {
  }

  lemma NothingBelow(ss: seq<State>, ms: seq<Move>, i: nat, k: nat, c: nat)
    ensures AskedBelow(ss, ms, i, k, c, 0)
  {
  }

  lemma {:induction false} IsOnItsWay(ss: seq<State>, ms: seq<Move>, i: nat, k: nat, c: nat)
    requires IsRun(ss, ms) && i < k < |ss| && ms[i] == Move(c, CallPop) && PopsNotBetween(ms, i, k, c)
    ensures c < |ss[k].ctl| && OnItsWay(ss, ms, i, k, c)
    decreases k
  {
    hide Step, Init;
    RunStep(ss, ms, k - 1);
    if k == i + 1 {
      BeginsToPop(ss[i], c, ss[k]);
    } else {
      IsOnItsWay(ss, ms, i, k - 1, c);
      hide IsRun, OnItsWay;
      StaysOnItsWay(ss, ms, i, k - 1, c);
    }
  }

  lemma BeginsToPop(s: State, c: nat, s': State)
    requires Step(s, c, CallPop, s')
    ensures c < |s.ctl| == |s'.ctl| && s.ctl[c] == Loop && s'.ctl[c] == Popping
  {
  }

  /** Between two pops of its own queue a core has got a task to run, from there or
      from a sibling, or it has tried to steal from every sibling. */
  lemma AnEmptyCoreAsksEverySibling(ss: seq<State>, ms: seq<Move>, i: nat, j: nat, c: nat, id: nat)
    requires IsRun(ss, ms) && i < j < |ms| && ms[i] == Move(c, CallPop) && ms[j] == Move(c, CallPop)
    requires PopsNotBetween(ms, i, j, c) && j < |ss| && id < |ss[j].ctl| && id != c
    ensures HasGot(ss, i, j, c) || Asked(ss, ms, i, j, c, id)
  {
    IsOnItsWay(ss, ms, i, j, c);
    RunStep(ss, ms, j);
    hide IsRun, Step, Init, HasGot, Asked;
    BeginsToPop(ss[j], c, ss[j + 1]);
  }

  // ----- a steal that takes nothing -----

  lemma OutsideLeavesPcs(s: State, d: nat, a: Act, s': State)
    requires Step(s, d, a, s') && Outside(a)
    ensures s'.q.pcs == s.q.pcs
  {
  }

  /** The queue step inside a step of the executor. */
  function QueueAct(s: State, d: nat, a: Act): L.Act
    requires d < |s.ctl| && !Outside(a) && Shape(s)
    requires a.CallPush? ==> s.ctl[d].AddCall? || s.ctl[d].Requeue?
    requires a.CallSteal? ==> s.ctl[d].Looking?
  {
    match a
    case Queue(qa) => qa
    case CallPush => L.Start(L.DoPush(s.ctl[d].t))
    case CallPop => L.Start(L.DoPop)
    case CallSteal => L.Start(L.DoSteal(s.ctl[d].id, true))
    case _ => L.Return
  }

  lemma InsideIsAQueueStep(s: State, d: nat, a: Act, s': State)
    requires Step(s, d, a, s') && !Outside(a)
    ensures Shape(s) && d < |s.ctl|
    ensures (a.CallPush? ==> s.ctl[d].AddCall? || s.ctl[d].Requeue?) && (a.CallSteal? ==> s.ctl[d].Looking?)
    ensures L.Step(s.q, d, QueueAct(s, d, a), s'.q)
  {
    hide L.Step;
  }

  /** The push count that a booking goes by was loaded by the last step of its core. */
  lemma PcStays(s: State, d: nat, a: Act, s': State, c: nat)
    requires Step(s, d, a, s') && c < |s.q.pcs| == |s'.q.pcs| && s'.q.pcs[c].BookPush?
    ensures s'.q.pcs[c] == s.q.pcs[c] || (d == c && a == Queue(L.BookLoadsPush))
  {
    hide Step, L.Step;
    if Outside(a) {
      OutsideLeavesPcs(s, d, a, s');
    } else {
      InsideIsAQueueStep(s, d, a, s');
      LifoRefusals.Enters(s.q, L.Label(d, QueueAct(s, d, a)), s'.q, c);
    }
  }

  lemma SamePcs(s: State, d: nat, a: Act, s': State)
    requires Step(s, d, a, s')
    ensures |s'.q.pcs| == |s.q.pcs|
  {
    hide Step, L.Step;
    if Outside(a) {
      OutsideLeavesPcs(s, d, a, s');
    } else {
      InsideIsAQueueStep(s, d, a, s');
      LifoRefusals.StepSize(s.q, L.Label(d, QueueAct(s, d, a)), s'.q);
    }
  }

  lemma {:induction false} PushLoaded(ss: seq<State>, ms: seq<Move>, i: nat, c: nat) returns (j: nat)
    requires IsRun(ss, ms) && i < |ss| && c < |ss[i].q.pcs| && ss[i].q.pcs[c].BookPush?
    ensures j < i && ms[j] == Move(c, Queue(L.BookLoadsPush))
    ensures c < |ss[j + 1].q.pcs| && ss[j + 1].q.pcs[c] == ss[i].q.pcs[c]
  {
    hide Step, Init;
    RunStep(ss, ms, if i > 0 then i - 1 else 0);
    if i == 0 {
      StartsIdle(ss[0], c);
    } else {
      SamePcs(ss[i - 1], ms[i - 1].core, ms[i - 1].act, ss[i]);
      PcStays(ss[i - 1], ms[i - 1].core, ms[i - 1].act, ss[i], c);
      if ss[i - 1].q.pcs[c] == ss[i].q.pcs[c] { j := PushLoaded(ss, ms, i - 1, c); } else { j := i - 1; }
    }
  }

  lemma StartsIdle(s: State, c: nat)
    requires Init(s) && c < |s.q.pcs|
    ensures s.q.pcs[c] == L.Idle
  {
  }

  /** A steal of the run loop takes nothing from an unbooked sibling only if that
      sibling's queue was empty when the call loaded its push count; or else as many
      as 2^32 entries have left it since the call loaded the packed word. */
  lemma AStealOfNothingSawAnEmptySibling(ss: seq<State>, ms: seq<Move>, i: nat) returns (j: nat)
    requires IsRun(ss, ms) && i < |ms| && ms[i].act.Queue? && ms[i].act.a.BookNone?
    ensures var c := ms[i].core;
      && c < |ss[i].q.pcs| && ss[i].q.pcs[c].BookPush?
      && var pc := ss[i].q.pcs[c]; var x := L.From(pc.bk, c);
      && j < i && ms[j] == Move(c, Queue(L.BookLoadsPush)) && Inv(ss[j].q) && x < |ss[j].q.qs|
      && (LifoRefinement.Deque(ss[j].q, x) == []
          || ss[j].q.qs[x].pop - pc.pop + ss[j].q.qs[x].booked - pc.booked + |LifoRefinement.Deque(ss[j].q, x)|
             >= WORD)
  {
    var c := ms[i].core;
    RunOk(ss, ms, i);
    RunStep(ss, ms, i);
    hide IsRun, Init, Step, L.Step, AllOk;
    FoundNothing(ss[i], c, ms[i].act.a, ss[i + 1]);
    j := PushLoaded(ss, ms, i, c);
    QueuesAreDisciplined(ss, ms, j);
    LifoRefusals.EmptyAtLoad(ss[j].q, c, ss[j + 1].q, ss[i].q.pcs[c]);
  }

  lemma FoundNothing(s: State, c: nat, a: L.Act, s': State)
    requires QueuesOk(s) && Step(s, c, Queue(a), s') && a.BookNone?
    ensures c < |s.q.pcs| && s.q.pcs[c].BookPush?
    ensures var pc := s.q.pcs[c]; L.Len32(pc.push, pc.pop, pc.booked) == 0
  {
    assert CoreFits(s, c) && CoreOk(s.q, c);
  }
}
