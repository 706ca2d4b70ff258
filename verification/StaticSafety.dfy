/** Every step of the static executor keeps the queues and the tasks in order. */
module StaticSafety {
  import opened Words
  import opened Ring
  import opened LifoMachine
  import opened LifoInvariant
  import opened StaticInvariant
  import LifoSafety
  import LifoConservation
  import LifoRefinement
  import S = StaticExecutor

  // ----- queue steps -----

  /** Core `c` steps inside its operation; the others keep their room. */
  lemma CoresKeep(s: S.State, c: nat, s': S.State)
    requires QueuesOk(s) && c < |s.ctl| && S.Shape(s') && Inv(s'.q) && s'.ctl == s.ctl && s'.q.n == s.q.n
    requires |s'.q.qs| == |s.q.qs| && LifoConservation.Frame(s.q, c, s'.q)
    requires forall x :: 0 <= x < |s.q.qs| && x != c ==> Moves(s.q.qs[x], s'.q.qs[x], false)
    requires CoreFits(s', c)
    ensures QueuesOk(s')
  {
    forall d | 0 <= d < |s.ctl| && d != c ensures CoreFits(s', d) {
      assert CoreFits(s, d) && CoreOk(s.q, d) && CoreOk(s'.q, d);
      RoomStable(s.q.qs[d], s'.q.qs[d], s.q.n, s.ctl[d], s.q.pcs[d]);
    }
  }

  lemma QueueDiscipline(s: S.State, c: nat, a: Act, s': S.State)
    requires QueuesOk(s) && S.Step(s, c, S.Queue(a), s')
    ensures Disciplined(s.q, c, a)
  {
    hide Inv;
    assert CoreFits(s, c);
    var x := s.ctl[c];
    if x.Adding? || x.Requeueing? {
      PushInside(s.q, c, x, a, s'.q);
    }
    if x.Popping? { PopInside(s.q, c, x, a, s'.q); }
    if x.Stealing? { StealInside(s.q, c, x, a, s'.q); }
  }

  /** A queue step meets the discipline, so it is a step of a disciplined run. */
  lemma QueueStepIsDisciplined(s: S.State, c: nat, a: Act, s': S.State)
    requires QueuesOk(s) && S.Step(s, c, S.Queue(a), s')
    ensures Next(s.q, Label(c, a), s'.q) && Inv(s'.q)
  {
    QueueDiscipline(s, c, a, s');
    LifoSafety.StepKeeps(s.q, Label(c, a), s'.q);
  }

  lemma InsideFits(s: S.State, c: nat, a: Act, s': S.State)
    requires QueuesOk(s) && S.Step(s, c, S.Queue(a), s') && Inv(s'.q)
    requires LifoConservation.Frame(s.q, c, s'.q) && s'.q.hands[c] == s.q.hands[c]
    requires s'.q.drains[c] == s.q.drains[c]
    ensures CoreFits(s', c)
  {
    hide Inv;
    assert CoreFits(s, c);
    var x := s.ctl[c];
    if x.Adding? || x.Requeueing? {
      PushInside(s.q, c, x, a, s'.q);
    }
    if x.Popping? { PopInside(s.q, c, x, a, s'.q); }
    if x.Stealing? { StealInside(s.q, c, x, a, s'.q); }
  }

  lemma DrainsStay(q: State, c: nat, a: Act, q': State)
    requires Step(q, c, a, q') && S.Inside(a)
    requires a.BookSwaps? ==> q.pcs[c].BookPush? && q.pcs[c].bk.ForSteal?
    ensures |q'.qs| == |q.qs| && q'.n == q.n && q'.drains == q.drains && q'.hands == q.hands
    ensures LifoConservation.Frame(q, c, q')
  {
    LifoConservation.StepFrame(q, c, a, q');
  }

  /** Which core may book or release: one that is stealing. */
  lemma BookersSteal(s: S.State, c: nat, a: Act, s': S.State)
    requires QueuesOk(s) && S.Step(s, c, S.Queue(a), s')
    ensures a.BookSwaps? ==> s.ctl[c].Stealing? && s.q.pcs[c].BookPush? && s.q.pcs[c].bk.ForSteal?
    ensures a.Releases? ==> s.ctl[c].Stealing?
  {
    assert CoreFits(s, c);
  }

  lemma QueueMoves(s: S.State, c: nat, a: Act, s': S.State)
    requires QueuesOk(s) && S.Step(s, c, S.Queue(a), s')
    ensures |s'.q.qs| == |s.q.qs|
    ensures forall x :: 0 <= x < |s.q.qs| && x != c ==> Moves(s.q.qs[x], s'.q.qs[x], false)
    ensures !s.ctl[c].Stealing? ==> forall x :: 0 <= x < |s.q.qs| ==>
      s'.q.qs[x].booked == s.q.qs[x].booked && s'.q.qs[x].released == s.q.qs[x].released
  {
    BookersSteal(s, c, a, s');
    if a.BookSwaps? { BookingMoves(s.q, c, a, s'.q); }
    else if a.Releases? { ReleaseMoves(s.q, c, s'.q); }
    else { OwnerMoves(s.q, c, a, s'.q); }
  }

  lemma QueueStepKeeps(s: S.State, c: nat, a: Act, s': S.State)
    requires QueuesOk(s) && S.Step(s, c, S.Queue(a), s')
    ensures QueuesOk(s')
  {
    QueueStepIsDisciplined(s, c, a, s');
    BookersSteal(s, c, a, s');
    DrainsStay(s.q, c, a, s'.q);
    QueueMoves(s, c, a, s');
    InsideFits(s, c, a, s');
    CoresKeep(s, c, s');
  }

  // ----- calls and returns -----

  /** Core `c` enters or leaves an operation: no ring changes. */
  lemma EdgeKeeps(s: S.State, c: nat, s': S.State)
    requires QueuesOk(s) && c < |s.ctl| == |s'.ctl| && S.Shape(s') && Inv(s'.q) && s'.q.n == s.q.n
    requires s'.ctl == s.ctl[c := s'.ctl[c]] && s'.q.qs == s.q.qs && s'.q.drains == s.q.drains
    requires LifoConservation.Frame(s.q, c, s'.q)
    requires CtlFits(s'.ctl[c], s'.q.pcs[c], s'.q.hands[c])
    requires RoomOk(s.q.qs[c], s.q.n, s'.ctl[c], s'.q.pcs[c])
    ensures QueuesOk(s')
  {
    forall d | 0 <= d < |s.ctl| ensures CoreFits(s', d) {
      assert CoreFits(s, d);
    }
  }

  /** Entering an operation: the queue's first load. */
  lemma CallFrame(s: S.State, c: nat, op: Op, s': S.State)
    requires QueuesOk(s) && S.Shape(s') && c < |s.ctl| && Step(s.q, c, Start(op), s'.q)
    ensures Inv(s'.q) && s'.q.qs == s.q.qs && s'.q.drains == s.q.drains && s'.q.n == s.q.n
    ensures LifoConservation.Frame(s.q, c, s'.q)
    ensures s'.q.hands[c] == s.q.hands[c] - LifoConservation.OpBag(op)
  {
    LifoSafety.StartKeeps(s.q, c, op, s'.q);
    LifoConservation.StepFrame(s.q, c, Start(op), s'.q);
    LifoConservation.StartHand(s.q, c, op, s'.q);
    LifoRefinement.RegistersOnlyRings(s.q, c, Start(op), s'.q);
    StartSameDrains(s.q, c, op, s'.q);
  }

  lemma StartSameDrains(q: State, c: nat, op: Op, q': State)
    requires Step(q, c, Start(op), q')
    ensures q'.drains == q.drains && q'.n == q.n
  {
  }

  lemma CallPushKeeps(s: S.State, c: nat, s': S.State)
    requires QueuesOk(s) && S.Step(s, c, S.CallPush, s')
    ensures QueuesOk(s')
  {
    hide Inv, QueuesOk;
    ActsOn(s, c, S.CallPush, s');
    FitsAt(s, c);
    CallFrame(s, c, DoPush(s.ctl[c].t), s');
    EdgeKeeps(s, c, s');
  }

  lemma CallPopKeeps(s: S.State, c: nat, s': S.State)
    requires QueuesOk(s) && S.Step(s, c, S.CallPop, s')
    ensures QueuesOk(s')
  {
    hide Inv, QueuesOk;
    ActsOn(s, c, S.CallPop, s');
    FitsAt(s, c);
    CallFrame(s, c, DoPop, s');
    EdgeKeeps(s, c, s');
  }

  lemma CallStealKeeps(s: S.State, c: nat, s': S.State)
    requires QueuesOk(s) && S.Step(s, c, S.CallSteal, s')
    ensures QueuesOk(s')
  {
    hide Inv, QueuesOk;
    ActsOn(s, c, S.CallSteal, s');
    FitsAt(s, c);
    CallFrame(s, c, DoSteal(s.ctl[c].id, true), s');
    EdgeKeeps(s, c, s');
  }

  lemma ReturnSame(q: State, c: nat, q': State)
    requires Step(q, c, Return, q')
    ensures q'.drains == q.drains && q'.n == q.n && q'.qs == q.qs
    ensures |q'.pcs| == |q.pcs| == |q'.hands| && q'.pcs[c] == Idle && q.pcs[c].Done?
    ensures !q.pcs[c].result.Extended? ==> q'.hands[c] == q.hands[c] + LifoConservation.ResultBag(q.pcs[c].result)
  {
    assert q.hands[c] + multiset{} == q.hands[c];
  }

  lemma ResultIs(r: Result)
    ensures match r
      case Rejected(t) => LifoConservation.ResultBag(r) == multiset{t}
      case Popped(t) => LifoConservation.ResultBag(r) == multiset{t}
      case StolePopped(t, _) => LifoConservation.ResultBag(r) == multiset{t}
      case Pushed => LifoConservation.ResultBag(r) == multiset{}
      case Nothing => LifoConservation.ResultBag(r) == multiset{}
      case _ => true
  {
  }

  lemma ReturnFits(x: S.Ctl, r: Result, h: multiset<Ptr>)
    requires CtlFits(x, Done(r), h)
    requires x.Adding? || x.Popping? || x.Stealing? || x.Requeueing?
    requires x.Requeueing? ==> !r.Rejected?
    ensures !r.Extended?
    ensures CtlFits(S.After(x, r), Idle, h + LifoConservation.ResultBag(r))
  {
    var b := LifoConservation.ResultBag(r);
    assert h == multiset{} && h + b == b;
    if x.Adding? || x.Requeueing? {
      assert r == Pushed || r == Rejected(x.t);
    } else {
      assert r.Nothing? || r.Popped? || r.StolePopped?;
    }
    hide LifoConservation.ResultBag;
    ResultIs(r);
  }

  lemma ReturnRoom(x: S.Ctl, r: Result, q: Ring, n: int, h: multiset<Ptr>)
    requires CtlFits(x, Done(r), h) && RoomOk(q, n, x, Done(r))
    requires x.Adding? || x.Popping? || x.Stealing? || x.Requeueing?
    ensures x.Requeueing? ==> !r.Rejected?
    ensures RoomOk(q, n, S.After(x, r), Idle)
  {
  }

  lemma ReturnsKeep(s: S.State, c: nat, s': S.State)
    requires QueuesOk(s) && S.Step(s, c, S.Returns, s')
    ensures QueuesOk(s')
  {
    assert CoreFits(s, c);
    LifoSafety.ReturnsKeep(s.q, c, s'.q);
    LifoConservation.StepFrame(s.q, c, Return, s'.q);
    ReturnSame(s.q, c, s'.q);
    ReturnRoom(s.ctl[c], s.q.pcs[c].result, s.q.qs[c], s.q.n, s.q.hands[c]);
    ReturnFits(s.ctl[c], s.q.pcs[c].result, s.q.hands[c]);
    EdgeKeeps(s, c, s');
  }

  /** The queue half of the executor's invariant. */
  lemma QueuesKeep(s: S.State, c: nat, a: S.Act, s': S.State)
    requires QueuesOk(s) && S.Step(s, c, a, s')
    ensures QueuesOk(s')
  {
    if a.Queue? { QueueStepKeeps(s, c, a.a, s'); }
    else if a.Returns? { ReturnsKeep(s, c, s'); }
    else if Outside(a) { OutsideKeeps(s, c, a, s'); }
    else if a.CallSteal? { CallStealKeeps(s, c, s'); }
    else if a.CallPush? { CallPushKeeps(s, c, s'); }
    else { CallPopKeeps(s, c, s'); }
  }
}
