/** When an `add` of the static executor has room: `push` looks at the booked head
    only, so adds and steals may overlap exactly as far as every write of an add
    finds the tail less than a ring past the released head. */
module StaticAdds {
  import opened Ring
  import opened LifoInvariant
  import opened StaticExecutor
  import opened StaticInvariant
  import opened StaticSafety
  import opened StaticRuns
  import L = LifoMachine
  import LifoSafety
  import LifoRuns

  /** A step of an add keeps the queues in order if and only if it finds room. */
  lemma AddKeepsExactly(s: State, c: nat, a: L.Act, s': State)
    requires QueuesOk(s) && AnyStep(s, c, Queue(a), s') && s.ctl[c].Adding?
    ensures QueuesOk(s') <==> AddFindsRoom(s, c, Queue(a))
  {
    if AddFindsRoom(s, c, Queue(a)) {
      QueuesKeep(s, c, Queue(a), s');
    } else {
      LifoRuns.PushKeepsExactlyWhenDisciplined(s.q, c, s'.q);
    }
  }

  /** It does while no thief has booked an entry of that core's queue. */
  lemma AClosedWindowIsRoom(s: State, c: nat, a: L.Act, s': State)
    requires QueuesOk(s) && AnyStep(s, c, Queue(a), s') && s.ctl[c].Adding?
    requires s.q.qs[c].booked == s.q.qs[c].released
    ensures AddFindsRoom(s, c, Queue(a))
  {
    assert CoreFits(s, c) && CoreOk(s.q, c);
    var pc := s.q.pcs[c];
    if pc.LoadedWord? { LifoSafety.LenExact(pc.push, pc.pop, pc.booked); }
  }

  // ----- all adds before all steals -----

  predicate InSetup(x: Ctl) { x.Setup? || x.AddCall? || x.Adding? }

  ghost predicate SomebodyAdds(s: State) { exists c :: 0 <= c < |s.ctl| && InSetup(s.ctl[c]) }

  /** While some core may still add, nobody steals. */
  ghost predicate NoneStolen(s: State)
    requires Shape(s)
  {
    SomebodyAdds(s) ==>
      forall d :: 0 <= d < |s.ctl| ==> !s.ctl[d].Stealing? && s.q.qs[d].booked == s.q.qs[d].released
  }

  /** A run in which every add precedes every steal; nothing is said about room. */
  ghost predicate IsAddsFirstRun(ss: seq<State>, ms: seq<Move>) {
    && |ss| == |ms| + 1 && Init(ss[0])
    && forall i {:trigger ms[i]} :: 0 <= i < |ms| ==>
         && AnyStep(ss[i], ms[i].core, ms[i].act, ss[i + 1])
         && (ms[i].act.CallSteal? ==> !SomebodyAdds(ss[i]))
  }

  lemma HasRoom(s: State, c: nat, a: Act, s': State)
    requires QueuesOk(s) && NoneStolen(s) && AnyStep(s, c, a, s')
    ensures Step(s, c, a, s')
  {
    hide QueuesOk;
    ActsOnAny(s, c, a, s');
    if a.Queue? && s.ctl[c].Adding? {
      assert InSetup(s.ctl[c]);
      AClosedWindowIsRoom(s, c, a.a, s');
    }
  }

  lemma ActsOnAny(s: State, c: nat, a: Act, s': State)
    requires AnyStep(s, c, a, s')
    ensures Shape(s) && c < |s.ctl|
  {
  }

  lemma ShapeOk(s: State)
    requires QueuesOk(s)
    ensures Shape(s)
  {
  }

  lemma StepIsAnyStep(s: State, c: nat, a: Act, s': State)
    requires Step(s, c, a, s')
    ensures AnyStep(s, c, a, s')
  {
  }

  lemma SetupEnds(s: State, c: nat, a: Act, s': State)
    requires AnyStep(s, c, a, s')
    ensures |s'.ctl| == |s.ctl| && s'.ctl == s.ctl[c := s'.ctl[c]]
    ensures InSetup(s'.ctl[c]) ==> InSetup(s.ctl[c])
    ensures s'.ctl[c].Stealing? ==> s.ctl[c].Stealing? || a.CallSteal?
  {
  }

  lemma HeadsStay(s: State, c: nat, a: Act, s': State)
    requires QueuesOk(s) && QueuesOk(s') && Step(s, c, a, s') && !s.ctl[c].Stealing?
    ensures |s'.q.qs| == |s.q.qs|
    ensures forall d :: 0 <= d < |s.q.qs| ==>
      s'.q.qs[d].booked == s.q.qs[d].booked && s'.q.qs[d].released == s.q.qs[d].released
  {
    hide QueuesOk, Inv, L.Step, RoomOk, CtlFits;
    ActsOn(s, c, a, s');
    ShapeOk(s');
    match a
    case Queue(qa) => QueueMoves(s, c, qa, s');
    case CallPush => CallFrame(s, c, L.DoPush(s.ctl[c].t), s');
    case CallPop => CallFrame(s, c, L.DoPop, s');
    case CallSteal => CallFrame(s, c, L.DoSteal(s.ctl[c].id, true), s');
    case Returns => ReturnSame(s.q, c, s'.q);
    case _ =>
  }

  lemma StaysNoneStolen(s: State, c: nat, a: Act, s': State)
    requires QueuesOk(s) && QueuesOk(s') && NoneStolen(s) && Step(s, c, a, s')
    requires a.CallSteal? ==> !SomebodyAdds(s)
    ensures NoneStolen(s')
  {
    hide QueuesOk, Step, AnyStep;
    ActsOn(s, c, a, s');
    ShapeOk(s');
    StepIsAnyStep(s, c, a, s');
    SetupEnds(s, c, a, s');
    if SomebodyAdds(s') {
      var e :| 0 <= e < |s'.ctl| && InSetup(s'.ctl[e]);
      assert InSetup(s.ctl[e]);
      HeadsStay(s, c, a, s');
    }
  }

  lemma AddsFirstStep(ss: seq<State>, ms: seq<Move>, i: nat)
    requires IsAddsFirstRun(ss, ms)
    ensures |ss| == |ms| + 1 && Init(ss[0])
    ensures i < |ms| ==>
      AnyStep(ss[i], ms[i].core, ms[i].act, ss[i + 1]) && (ms[i].act.CallSteal? ==> !SomebodyAdds(ss[i]))
  {
  }

  lemma InitNoneStolen(s: State)
    requires Init(s)
    ensures Shape(s) && NoneStolen(s)
  {
  }

  lemma {:induction false} AddsFirstOk(ss: seq<State>, ms: seq<Move>, i: nat)
    requires IsAddsFirstRun(ss, ms) && i < |ss|
    ensures AllOk(ss[i]) && Shape(ss[i]) && NoneStolen(ss[i])
    ensures i < |ms| ==> Step(ss[i], ms[i].core, ms[i].act, ss[i + 1])
  {
    hide IsAddsFirstRun, Init, QueuesOk, TasksOk, ClaimsOk, EntriesOk, NoneStolen, SomebodyAdds, Step, AnyStep, Shape;
    AddsFirstStep(ss, ms, i);
    if i == 0 {
      InitAll(ss[0]);
      InitNoneStolen(ss[0]);
    } else {
      AddsFirstOk(ss, ms, i - 1);
      AddsFirstStep(ss, ms, i - 1);
      StepOk(ss[i - 1], ms[i - 1], ss[i]);
      ShapeOk(ss[i]);
      StaysNoneStolen(ss[i - 1], ms[i - 1].core, ms[i - 1].act, ss[i]);
    }
    if i < |ms| { HasRoom(ss[i], ms[i].core, ms[i].act, ss[i + 1]); }
  }

  /** If every add precedes every steal, every add finds room, so that all theorems
      about runs hold of such a run. */
  lemma AddsFirstFindRoom(ss: seq<State>, ms: seq<Move>)
    requires IsAddsFirstRun(ss, ms)
    ensures IsRun(ss, ms)
  {
    hide AllOk, Step, AnyStep, Init, NoneStolen;
    AddsFirstStep(ss, ms, 0);
    forall i | 0 <= i < |ms| ensures Step(ss[i], ms[i].core, ms[i].act, ss[i + 1]) {
      AddsFirstOk(ss, ms, i);
    }
  }
}
