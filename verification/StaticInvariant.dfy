/** The queues under the executor: with one hand per core and steals of one
    entry, there is always room below the released head for the entry a core
    holds, so the client discipline the queues need is met. */
module StaticInvariant {
  import opened Words
  import opened Ring
  import opened LifoMachine
  import opened LifoInvariant
  import LifoSafety
  import S = StaticExecutor

  // ----- the operation a core is inside of -----

  predicate InPush(pc: Pc, t: Ptr) {
    || (pc.LoadedPush? && pc.job == Push(t))
    || (pc.LoadedWord? && pc.job == Push(t))
    || (pc.PushWrote? && pc.item == t)
    || pc == Done(Pushed) || pc == Done(Rejected(t))
  }

  predicate InPop(pc: Pc) {
    pc.PopWord? || pc.PopLoaded? || pc.PopTaken? || (pc.Done? && (pc.result.Nothing? || pc.result.Popped?))
  }

  predicate InSteal(pc: Pc, id: nat) {
    || ((pc.LoadedPush? || pc.LoadedWord?) && pc.job == Steal(id, true))
    || ((pc.ToBook? || pc.BookWord? || pc.BookHead? || pc.BookPush?) && OneFrom(pc.bk, id))
    || ((pc.Copying? || pc.Publishing?) && OneFrom(pc.bk, id) && |pc.items| == 1)
    || (pc.Releasing? && OneFrom(pc.bk, id) && pc.result.StolePopped?)
    || (pc.Done? && (pc.result.Nothing? || pc.result.StolePopped?))
  }

  predicate OneFrom(bk: Booking, id: nat) { bk.ForSteal? && bk.andPop && bk.from == id }

  predicate CtlFits(x: S.Ctl, pc: Pc, hand: multiset<Ptr>) {
    match x
    case Setup => pc == Idle && hand == multiset{}
    case Loop => pc == Idle && hand == multiset{}
    case Looking(_) => pc == Idle && hand == multiset{}
    case Panicked => pc == Idle
    case AddCall(t) => pc == Idle && hand == multiset{t}
    case Got(t) => pc == Idle && hand == multiset{t}
    case Polling(t) => pc == Idle && hand == multiset{t}
    case Completed(t) => pc == Idle && hand == multiset{t}
    case Parked(t) => pc == Idle && hand == multiset{t}
    case Requeue(t) => pc == Idle && hand == multiset{t}
    case Adding(t) => InPush(pc, t) && hand == multiset{}
    case Requeueing(t) => InPush(pc, t) && hand == multiset{}
    case Popping => InPop(pc) && hand == multiset{}
    case Stealing(id) => InSteal(pc, id) && hand == multiset{}
  }

  // ----- the room -----

  /** The core holds an entry it may have to push back. */
  predicate HoldsOne(x: S.Ctl, pc: Pc) {
    || x.Got? || x.Polling? || x.Completed? || x.Parked? || x.Requeue?
    || (x.Requeueing? && !pc.Done?)
    || (x.Popping? && (pc.PopTaken? || (pc.Done? && pc.result.Popped?)))
    || (x.Stealing? && (Holds(pc) || (pc.Done? && pc.result.StolePopped?)))
  }

  /** The core has found its own queue empty and looks elsewhere. */
  predicate FoundEmpty(x: S.Ctl, pc: Pc) {
    || (x.Popping? && pc == Done(Nothing))
    || x.Looking?
    || (x.Stealing? && !HoldsOne(x, pc))
  }

  ghost predicate RoomOk(q: Ring, n: int, x: S.Ctl, pc: Pc) {
    && q.booked - q.released <= 1
    && (HoldsOne(x, pc) ==> q.Tail() + 1 <= q.released + n)
    && (FoundEmpty(x, pc) ==> q.Tail() == q.booked)
    && (x.Requeueing? ==> pc != Done(Rejected(x.t)))
    && (x.Requeueing? && pc.LoadedWord? ==> q.Tail() + 1 <= pc.booked + n)
  }

  // ----- the tasks -----

  predicate RunsTask(x: S.Ctl, t: Ptr) { (x.Polling? || x.Completed? || x.Parked?) && x.t == t }

  /** A task some core runs is marked running. */
  ghost predicate RunnersMarked(s: S.State) {
    forall c, t {:trigger RunsTask(s.ctl[c], t)} :: 0 <= c < |s.ctl| && RunsTask(s.ctl[c], t) ==>
      S.IsTask(s, t) && s.tasks[t] == S.Running
  }

  ghost predicate OneRunner(s: S.State) {
    forall c, d, t :: 0 <= c < |s.ctl| && 0 <= d < |s.ctl| && RunsTask(s.ctl[c], t) && RunsTask(s.ctl[d], t) ==> c == d
  }

  ghost predicate HasRunner(s: S.State, t: Ptr) { exists c :: 0 <= c < |s.ctl| && RunsTask(s.ctl[c], t) }

  ghost predicate TasksOk(s: S.State) {
    && RunnersMarked(s) && OneRunner(s)
    && forall t :: 0 <= t < |s.tasks| && s.tasks[t] == S.Running ==> HasRunner(s, t)
  }

  ghost predicate ClaimsOk(s: S.State) {
    && (forall i, j :: 0 <= i < j < |s.claims| ==> s.claims[i] != s.claims[j])
    && (forall t :: 0 <= t < |s.tasks| && s.tasks[t] == S.Free ==> t !in s.claims)
    && (forall i :: 0 <= i < |s.claims| ==> S.IsTask(s, s.claims[i]))
  }

  // ----- the whole -----

  ghost predicate CoreFits(s: S.State, c: nat)
    requires S.Shape(s) && c < |s.ctl|
  {
    && CtlFits(s.ctl[c], s.q.pcs[c], s.q.hands[c])
    && RoomOk(s.q.qs[c], s.q.n, s.ctl[c], s.q.pcs[c])
    && s.q.drains[c] == NoDrain
  }

  ghost predicate QueuesOk(s: S.State) {
    && S.Shape(s) && Inv(s.q) && s.q.n >= 2
    && forall c :: 0 <= c < |s.ctl| ==> CoreFits(s, c)
  }

  lemma FitsAt(s: S.State, c: nat)
    requires QueuesOk(s) && c < |s.ctl|
    ensures S.Shape(s) && Inv(s.q) && s.q.n >= 2
    ensures CtlFits(s.ctl[c], s.q.pcs[c], s.q.hands[c])
    ensures RoomOk(s.q.qs[c], s.q.n, s.ctl[c], s.q.pcs[c])
    ensures s.q.drains[c] == NoDrain
  {
    assert CoreFits(s, c);
  }

  lemma InitOk(s: S.State)
    requires S.Init(s)
    ensures QueuesOk(s) && TasksOk(s) && ClaimsOk(s)
  {
    InitInv(s.q);
  }

  // ----- steps outside the queue operations -----

  lemma RoomStable(q: Ring, q': Ring, n: int, x: S.Ctl, pc: Pc)
    requires RoomOk(q, n, x, pc) && q'.Tail() == q.Tail()
    requires q.released <= q'.released && q.booked <= q'.booked <= q'.Tail() && q'.booked - q'.released <= 1
    ensures RoomOk(q', n, x, pc)
  {
  }

  /** A step that changes the control of one core and entries in its hand only. */
  lemma ControlKeeps(s: S.State, c: nat, x: S.Ctl, h: multiset<Ptr>, s': S.State)
    requires QueuesOk(s) && c < |s.ctl|
    requires s'.q == S.SetHand(s.q, c, h) && s'.ctl == s.ctl[c := x]
    requires CtlFits(x, s.q.pcs[c], h) && RoomOk(s.q.qs[c], s.q.n, x, s.q.pcs[c])
    ensures QueuesOk(s')
  {
    assert CoreFits(s, c);
    forall d | 0 <= d < |s.ctl| ensures CoreFits(s', d) && CoreOk(s'.q, d) {
      assert CoreFits(s, d) && CoreOk(s.q, d);
    }
  }

  /** All steps of the executor but those of and around its queue operations. */
  predicate Outside(a: S.Act) { !a.Queue? && !a.Returns? && !a.CallPush? && !a.CallPop? && !a.CallSteal? }

  lemma OutsideKeeps(s: S.State, c: nat, a: S.Act, s': S.State)
    requires QueuesOk(s) && S.Step(s, c, a, s') && Outside(a)
    ensures QueuesOk(s')
  {
    hide Inv, QueuesOk;
    ActsOn(s, c, a, s');
    FitsAt(s, c);
    var h := s.q.hands[c];
    assert S.SetHand(s.q, c, h) == s.q;
    match a
    case Claim(slot) => assert s.ctl[c := s.ctl[c]] == s.ctl; ControlKeeps(s, c, s.ctl[c], h, s');
    case EnterRun => ControlKeeps(s, c, S.Loop, h, s');
    case SkipSelf => ControlKeeps(s, c, S.Looking(c + 1), h, s');
    case GiveUp => ControlKeeps(s, c, S.Loop, h, s');
    case PollReady => ControlKeeps(s, c, S.Completed(s.ctl[c].t), h, s');
    case PollPending => ControlKeeps(s, c, S.Parked(s.ctl[c].t), h, s');
    case AddSwaps(_) => AddSwapsKeeps(s, c, a.t, s');
    case StoresReady => StoresReadyKeeps(s, c, s');
    case Finishes => FinishesKeeps(s, c, s');
    case RunSwaps => RunSwapsKeeps(s, c, s');
  }

  lemma ActsOn(s: S.State, c: nat, a: S.Act, s': S.State)
    requires S.Step(s, c, a, s')
    ensures S.Shape(s) && c < |s.ctl|
  {
  }

  lemma AddSwapsKeeps(s: S.State, c: nat, t: Ptr, s': S.State)
    requires QueuesOk(s) && S.Step(s, c, S.AddSwaps(t), s')
    ensures QueuesOk(s')
  {
    hide Inv, QueuesOk;
    ActsOn(s, c, S.AddSwaps(t), s');
    FitsAt(s, c);
    ControlKeeps(s, c, S.AddCall(t), s.q.hands[c] + multiset{t}, s');
  }

  lemma StoresReadyKeeps(s: S.State, c: nat, s': S.State)
    requires QueuesOk(s) && S.Step(s, c, S.StoresReady, s')
    ensures QueuesOk(s')
  {
    hide Inv, QueuesOk;
    ActsOn(s, c, S.StoresReady, s');
    FitsAt(s, c);
    assert S.SetHand(s.q, c, s.q.hands[c]) == s.q;
    ControlKeeps(s, c, S.Requeue(s.ctl[c].t), s.q.hands[c], s');
  }

  lemma FinishesKeeps(s: S.State, c: nat, s': S.State)
    requires QueuesOk(s) && S.Step(s, c, S.Finishes, s')
    ensures QueuesOk(s')
  {
    hide Inv, QueuesOk;
    ActsOn(s, c, S.Finishes, s');
    FitsAt(s, c);
    ControlKeeps(s, c, S.Loop, s.q.hands[c] - multiset{s.ctl[c].t}, s');
  }

  lemma RunSwapsKeeps(s: S.State, c: nat, s': S.State)
    requires QueuesOk(s) && S.Step(s, c, S.RunSwaps, s')
    ensures QueuesOk(s')
  {
    hide Inv, QueuesOk;
    ActsOn(s, c, S.RunSwaps, s');
    FitsAt(s, c);
    if s.tasks[s.ctl[c].t] == S.Ready {
      assert S.SetHand(s.q, c, s.q.hands[c]) == s.q;
      ControlKeeps(s, c, S.Polling(s.ctl[c].t), s.q.hands[c], s');
    } else {
      ControlKeeps(s, c, S.Loop, s.q.hands[c] - multiset{s.ctl[c].t}, s');
    }
  }

  // ----- what a queue step does to the rings of the others -----

  /** The tail of another core's ring stands still; its heads only advance, and
      a booking of one entry leaves a window of one. */
  ghost predicate Moves(q: Ring, q': Ring, own: bool) {
    && (!own ==> q'.Tail() == q.Tail())
    && q.released <= q'.released && q.booked <= q'.booked
    && (q.booked - q.released <= 1 ==> q'.booked - q'.released <= 1)
  }

  lemma OwnerMoves(q: LifoMachine.State, c: nat, a: Act, q': LifoMachine.State)
    requires Inv(q) && Step(q, c, a, q') && Inside(a) && !a.BookSwaps? && !a.Releases?
    ensures |q'.qs| == |q.qs|
    ensures forall x :: 0 <= x < |q.qs| ==>
      && (x != c ==> q'.qs[x] == q.qs[x])
      && q'.qs[x].booked == q.qs[x].booked && q'.qs[x].released == q.qs[x].released
  {
    assert CoreOk(q, c);
    if a.PopSwaps? { LifoSafety.PopSwapsExact(q, c, q'); }
  }

  predicate Inside(a: Act) { S.Inside(a) }

  lemma BookingMoves(q: LifoMachine.State, c: nat, a: Act, q': LifoMachine.State)
    requires Inv(q) && Step(q, c, a, q') && Timely(q, c) && a == BookSwaps(1) && q.pcs[c].bk.ForSteal?
    ensures |q'.qs| == |q.qs|
    ensures forall x :: 0 <= x < |q.qs| ==> Moves(q.qs[x], q'.qs[x], false)
  {
    LifoSafety.BookSwapsExact(q, c, 1, q');
  }

  lemma ReleaseMoves(q: LifoMachine.State, c: nat, q': LifoMachine.State)
    requires Inv(q) && Step(q, c, Releases, q')
    ensures |q'.qs| == |q.qs|
    ensures forall x :: 0 <= x < |q.qs| ==> Moves(q.qs[x], q'.qs[x], false)
  {
    assert CoreOk(q, c);
    assert CoreOk(q, VictimOf(q.pcs[c], c));
  }

  // ----- what it does inside the core's own operation -----

  lemma PushInside(q: LifoMachine.State, c: nat, x: S.Ctl, a: Act, q': LifoMachine.State)
    requires Inv(q) && Step(q, c, a, q') && Inside(a)
    requires (x.Adding? || x.Requeueing?) && InPush(q.pcs[c], x.t)
    requires RoomOk(q.qs[c], q.n, x, q.pcs[c])
    requires x.Adding? ==> Disciplined(q, c, a)
    ensures |q'.qs| == |q.qs| == |q'.pcs| && Disciplined(q, c, a)
    ensures InPush(q'.pcs[c], x.t) && RoomOk(q'.qs[c], q.n, x, q'.pcs[c])
    ensures a.LoadWord? || a.PushRejects? || a.PushWrites? || a.PushStores?
  {
    assert CoreOk(q, c);
    var pc := q.pcs[c];
    if pc.LoadedWord? { LifoSafety.LenExact(pc.push, pc.pop, pc.booked); }
  }

  lemma PopInside(q: LifoMachine.State, c: nat, x: S.Ctl, a: Act, q': LifoMachine.State)
    requires Inv(q) && Step(q, c, a, q') && Inside(a)
    requires x.Popping? && InPop(q.pcs[c])
    requires RoomOk(q.qs[c], q.n, x, q.pcs[c])
    ensures |q'.qs| == |q.qs| == |q'.pcs| && Disciplined(q, c, a)
    ensures InPop(q'.pcs[c]) && RoomOk(q'.qs[c], q.n, x, q'.pcs[c])
    ensures a.PopLoads? || a.PopEmpty? || a.PopSwaps? || a.PopRetries? || a.PopReads?
  {
    assert CoreOk(q, c);
    var pc := q.pcs[c];
    if a.PopSwaps? { LifoSafety.PopSwapsExact(q, c, q'); }
    if a.PopEmpty? { LifoSafety.TailExact(pc.push, pc.pop, pc.booked); }
  }

  lemma StealInside(q: LifoMachine.State, c: nat, x: S.Ctl, a: Act, q': LifoMachine.State)
    requires Inv(q) && q.n >= 2 && Step(q, c, a, q') && Timely(q, c) && Inside(a)
    requires x.Stealing? && InSteal(q.pcs[c], x.id)
    requires RoomOk(q.qs[c], q.n, x, q.pcs[c])
    ensures |q'.qs| == |q.qs| == |q'.pcs| && Disciplined(q, c, a)
    ensures InSteal(q'.pcs[c], x.id) && RoomOk(q'.qs[c], q.n, x, q'.pcs[c])
  {
    assert CoreOk(q, c);
    if a.BookSwaps? { LifoSafety.BookSwapsExact(q, c, 1, q'); }
  }
}
