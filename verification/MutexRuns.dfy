/** The theorems about whole runs of the mutex. */
module MutexRuns {
  import opened Options
  import opened WaitList
  import opened MutexProtocol

  predicate Legal(s: State, acts: seq<Act>)
    decreases |acts|
  {
    acts == [] || (Enabled(s, acts[0]) && Legal(Next(s, acts[0]), acts[1..]))
  }

  function After(s: State, acts: seq<Act>): State
    requires Legal(s, acts)
    decreases |acts|
  {
    if acts == [] then s else After(Next(s, acts[0]), acts[1..])
  }

  /** No future is dropped between the unlock that popped it and its next poll, no
      poll goes on in front of a free mutex, and no pop finds the oldest node
      without a waker. */
  predicate Patient(s: State, acts: seq<Act>)
    requires Legal(s, acts)
    decreases |acts|
  {
    acts != [] ==>
      && (acts[0].DropFuture? ==> !s.futs[acts[0].id].woken) && (acts[0].Link? || acts[0].Look? ==> s.locked)
      && (acts[0].Pop? ==> Forgets(s) == 0)
      && Patient(Next(s, acts[0]), acts[1..])
  }

  lemma {:induction false} RunKeeps(s: State, acts: seq<Act>)
    requires Inv(s) && Legal(s, acts)
    ensures Inv(After(s, acts))
    decreases |acts|
  {
    if acts != [] {
      StepKeeps(s, acts[0]);
      RunKeeps(Next(s, acts[0]), acts[1..]);
    }
  }

  /** In every reachable state the flag is set exactly while one guard lives, and
      there is never a second one; every node in the list belongs to a live future,
      and has its latest waker unless that future is between link and store;
      unlocks have woken waiters in the order in which they were linked; and a
      future that has stored a waker is in the list, has a wake on its way, is being
      polled or was forgotten by an unlock. */
  lemma EveryRun(acts: seq<Act>)
    requires Legal(START, acts)
    ensures var s := After(START, acts);
      && s.guards <= 1 && (s.locked <==> s.guards == 1)
      && (forall id :: id in s.list ==> id in s.futs)
      && (forall id :: id in s.list && s.futs[id].waker == None ==> InPhase(s, id, ToLook) || InPhase(s, id, ToStore))
      && (forall id :: id in s.list && s.futs[id].waker.Some? ==>
            id in s.last && s.futs[id].waker == Some(s.last[id]))
      && (forall i, j :: 0 <= i < j < |s.log| ==> s.log[i] < s.log[j])
      && (forall id :: id in s.last && id !in s.list ==>
            id in s.pending || id in s.trying || (id in s.futs && s.futs[id].linked && !s.futs[id].woken))
  {
    RunKeeps(START, acts);
    var s := After(START, acts);
    forall id | id in s.list ensures ListOk(s, id) && FutOk(s, id) { }
    forall id | id in s.last ensures id in s.futs && FutOk(s, id) { }
  }

  /** As long as no unlock has forgotten a node, none is forgotten: every future that
      has stored a waker is in the list, has a wake on its way or is being polled. */
  lemma NobodyIsForgotten(s: State, id: nat)
    requires Inv(s) && NobodyStranded(s) && id in s.last
    ensures id in s.list || id in s.pending || id in s.trying
  {
    assert FutOk(s, id);
  }

  /** An unlock meets a node without a waker only while its future is in the middle
      of a poll, between link and store. */
  lemma ForgottenNodesAreBeingPolled(s: State, i: nat)
    requires Inv(s) && i < Forgets(s)
    ensures i < |s.list| && s.list[i] in s.futs && s.futs[s.list[i]].waker == None
    ensures InPhase(s, s.list[i], ToLook) || InPhase(s, s.list[i], ToStore)
  {
    assert ListOk(s, s.list[i]);
  }

  lemma {:induction false} RunStaysGuarded(s: State, acts: seq<Act>)
    requires Inv(s) && Guarded(s) && NobodyStranded(s) && Legal(s, acts) && Patient(s, acts)
    ensures Inv(After(s, acts)) && Guarded(After(s, acts)) && NobodyStranded(After(s, acts))
    decreases |acts|
  {
    hide Inv, Guarded, NobodyStranded, Loses, NoLostWake, Next, Enabled;
    if acts != [] {
      StepKeeps(s, acts[0]);
      StepStaysGuarded(s, acts[0]);
      GuardedMeansNoLostWake(s);
      GuardedMeansNoLostWake(Next(s, acts[0]));
      StepStrandsNobody(s, acts[0]);
      RunStaysGuarded(Next(s, acts[0]), acts[1..]);
    }
  }

  lemma StepStrandsNobody(s: State, a: Act)
    requires Inv(s) && Awake(s) && Enabled(s, a) && Guarded(Next(s, a)) && (a.Pop? ==> Forgets(s) == 0)
    ensures NobodyStranded(Next(s, a))
  {
    hide Inv, Forgets, NobodyStranded, NoLostWake, Next, Enabled;
    match a
    case Pop => PopStrandsExactly(s);
    case DropFuture(id) => DropKeeps(s, id);
    case Link(id) => LinkStrandsNobody(s, id);
    case _ => StepKeepsWakesExactly(s, a);
  }

  lemma LinkStrandsNobody(s: State, id: nat)
    requires Inv(s) && NobodyStranded(s) && Enabled(s, Link(id))
    ensures NobodyStranded(Next(s, Link(id)))
  {
  }

  /** No wake is lost in a run that drops no popped future before its next poll, and
      lets no unlock into the middle of a poll that goes on in front of a free mutex
      or has yet to store its waker. */
  lemma NoRunLosesAWake(acts: seq<Act>)
    requires Legal(START, acts) && Patient(START, acts)
    ensures Awake(After(START, acts))
  {
    RunStaysGuarded(START, acts);
    GuardedMeansNoLostWake(After(START, acts));
  }

  predicate NeverLoses(s: State, acts: seq<Act>)
    requires Legal(s, acts)
    decreases |acts|
  {
    acts != [] ==> !Loses(s, acts[0]) && NeverLoses(Next(s, acts[0]), acts[1..])
  }

  /** In every state of the run a free mutex with waiters has a wake on its way, and
      every waiter can be found by the next unlock. */
  predicate AlwaysAwake(s: State, acts: seq<Act>)
    requires Legal(s, acts)
    decreases |acts|
  {
    Awake(s) && (acts != [] ==> AlwaysAwake(Next(s, acts[0]), acts[1..]))
  }

  lemma {:induction false} AwakeExactly(s: State, acts: seq<Act>)
    requires Inv(s) && Awake(s) && Legal(s, acts)
    ensures AlwaysAwake(s, acts) <==> NeverLoses(s, acts)
    decreases |acts|
  {
    hide Inv, Awake, Loses, Next, Enabled;
    if acts != [] {
      StepKeeps(s, acts[0]);
      StepKeepsWakesExactly(s, acts[0]);
      if !Loses(s, acts[0]) { AwakeExactly(Next(s, acts[0]), acts[1..]); }
    }
  }

  /** A run, with polls whole or step by step, never loses a wake and never strands a
      waiter if and only if it never drops the last wake on its way to a free mutex
      with waiters, never links the first waiter of a free mutex with no wake on its
      way, and never unlocks while the oldest node has no waker yet. */
  lemma RunsAreAwakeExactly(acts: seq<Act>)
    requires Legal(START, acts)
    ensures AlwaysAwake(START, acts) <==> NeverLoses(START, acts)
  {
    AwakeExactly(START, acts);
  }

  // ----- all three losses happen -----

  lemma {:induction false} RunsJoin(s: State, a: seq<Act>, b: seq<Act>)
    requires Legal(s, a) && Legal(After(s, a), b)
    ensures Legal(s, a + b) && After(s, a + b) == After(After(s, a), b)
    decreases |a|
  {
    hide Next, Enabled;
    if a == [] {
      assert a + b == b;
    } else {
      RunsJoin(Next(s, a[0]), a[1..], b);
      assert (a + b)[1..] == a[1..] + b;
      LegalStep(s, a + b);
    }
  }

  const NEW := Fut(false, false, None)
  const TWO_WAIT := State(
    true, [1, 2], map[1 := Fut(true, false, Some(10)), 2 := Fut(true, false, Some(20))], 1, 0, map[], {},
    map[1 := 10, 2 := 20], map[1 := 0, 2 := 1], 2, [])

  lemma TwoCanWait()
    ensures var acts := [TryLock, Create(1), Create(2), Poll(1, 10), Poll(2, 20)];
      Legal(START, acts) && After(START, acts) == TWO_WAIT
  {
    var s0 := Next(START, TryLock);
    var s1 := Next(s0, Create(1));
    var s2 := Next(s1, Create(2));
    assert s2 == State(true, [], map[1 := NEW, 2 := NEW], 1, 0, map[], {}, map[], map[], 0, []);
    var s3 := Next(s2, Poll(1, 10));
    assert s3 == State(
      true, [1], map[1 := Fut(true, false, Some(10)), 2 := NEW], 1, 0, map[], {}, map[1 := 10], map[1 := 0], 1, []);
    assert Next(s3, Poll(2, 20)) == TWO_WAIT;
    hide Next, Enabled;
    LegalStep(s3, [Poll(2, 20)]);
    LegalStep(s2, [Poll(1, 10), Poll(2, 20)]);
    LegalStep(s1, [Create(2), Poll(1, 10), Poll(2, 20)]);
    LegalStep(s0, [Create(1), Create(2), Poll(1, 10), Poll(2, 20)]);
  }

  /** The first of the two was popped. */
  const ONE_LEFT := TWO_WAIT.(
    locked := false, guards := 0, list := [2], pending := {1}, log := [0],
    futs := map[1 := Fut(true, true, None), 2 := Fut(true, false, Some(20))])

  lemma NoneIsForgotten(s: State)
    requires s == TWO_WAIT.(locked := false, guards := 0)
    ensures Forgets(s) == 0
  {
    var p := Parked(s);
    assert 1 in p && p[1] == Some(10);
    hide Parked;
    SkippedIs(s.list, p, 0);
  }

  lemma TheFirstIsPopped()
    ensures var s := Next(TWO_WAIT, DropGuard); s.popping > 0 && Next(s, Pop) == ONE_LEFT
  {
    var u := TWO_WAIT.(locked := false, guards := 0);
    NoneIsForgotten(u);
    hide Forgets, PollSpec, Without;
    assert u.list[1..] == [2];
    assert u.futs[1 := Fut(true, true, None)] == ONE_LEFT.futs;
    assert AfterPop(u) == ONE_LEFT;
  }

  lemma TheFirstIsDropped()
    ensures Legal(ONE_LEFT, [DropFuture(1)])
    ensures var s := After(ONE_LEFT, [DropFuture(1)]);
      !s.locked && s.guards == 0 && s.list == [2] && s.popping == 0 && Carriers(s) == {}
  {
    WithoutAbsent([2], 1);
    LegalStep(ONE_LEFT, [DropFuture(1)]);
  }

  lemma TheWokenIsDropped()
    ensures var acts := [DropGuard, Pop, DropFuture(1)];
      && Legal(TWO_WAIT, acts) && var s := After(TWO_WAIT, acts);
      !s.locked && s.guards == 0 && s.list == [2] && s.popping == 0 && Carriers(s) == {}
  {
    hide After, Legal, Next, Carriers;
    TheFirstIsPopped();
    TheFirstIsDropped();
    LegalStep(Next(TWO_WAIT, DropGuard), [Pop, DropFuture(1)]);
    LegalStep(TWO_WAIT, [DropGuard, Pop, DropFuture(1)]);
  }

  /** From the start: two wait, the first is dropped after it was woken, and the
      second is stranded in front of a free mutex. */
  lemma DroppingAWokenFutureStrandsTheNext()
    ensures var acts := [TryLock, Create(1), Create(2), Poll(1, 10), Poll(2, 20)] + [DropGuard, Pop, DropFuture(1)];
      && Legal(START, acts) && var s := After(START, acts);
      !s.locked && s.guards == 0 && s.list == [2] && s.popping == 0 && Carriers(s) == {}
  {
    hide *;
    TwoCanWait();
    TheWokenIsDropped();
    RunsJoin(START, [TryLock, Create(1), Create(2), Poll(1, 10), Poll(2, 20)], [DropGuard, Pop, DropFuture(1)]);
  }

  /** From the start: a future fails to lock, the guard is dropped with nobody in
      the list, and then the future links, looks and stores, in front of a free
      mutex, for good. */
  lemma ParkingLateStrandsTheFuture()
    ensures var acts :=
        [TryLock, Create(1), Attempt(1), DropGuard, Pop] + [Link(1), Look(1), Store(1, 10)];
      && Legal(START, acts) && var s := After(START, acts);
      !s.locked && s.guards == 0 && s.list == [1] && s.popping == 0 && Carriers(s) == {} && s.trying == map[]
  {
    hide *;
    AttemptsEarly();
    ParksLate();
    RunsJoin(START, [TryLock, Create(1), Attempt(1), DropGuard, Pop], [Link(1), Look(1), Store(1, 10)]);
  }

  const ATTEMPTED := State(false, [], map[1 := NEW], 0, 0, map[1 := ToLink], {}, map[], map[], 0, [])

  lemma AttemptsEarly()
    ensures var acts := [TryLock, Create(1), Attempt(1), DropGuard, Pop];
      Legal(START, acts) && After(START, acts) == ATTEMPTED
  {
    var s0 := Next(START, TryLock);
    var s1 := Next(s0, Create(1));
    var s2 := Next(s1, Attempt(1));
    assert s2 == State(true, [], map[1 := NEW], 1, 0, map[1 := ToLink], {}, map[], map[], 0, []);
    var s3 := Next(s2, DropGuard);
    assert Next(s3, Pop) == ATTEMPTED;
    hide Next, Enabled;
    LegalStep(s3, [Pop]);
    LegalStep(s2, [DropGuard, Pop]);
    LegalStep(s1, [Attempt(1), DropGuard, Pop]);
    LegalStep(s0, [Create(1), Attempt(1), DropGuard, Pop]);
  }

  lemma ParksLate()
    ensures var acts := [Link(1), Look(1), Store(1, 10)];
      && Legal(ATTEMPTED, acts) && var t := After(ATTEMPTED, acts);
      !t.locked && t.guards == 0 && t.list == [1] && t.popping == 0 && Carriers(t) == {} && t.trying == map[]
  {
    var s5 := Next(ATTEMPTED, Link(1));
    assert s5 == State(
      false, [1], map[1 := Fut(true, false, None)], 0, 0, map[1 := ToLook], {}, map[], map[1 := 0], 1, []);
    var s6 := Next(s5, Look(1));
    var s7 := Next(s6, Store(1, 10));
    assert s7.trying == map[] && Carriers(s7) == {};
    hide Next, Enabled, Carriers;
    LegalStep(s6, [Store(1, 10)]);
    LegalStep(s5, [Look(1), Store(1, 10)]);
    LegalStep(ATTEMPTED, [Link(1), Look(1), Store(1, 10)]);
  }

  /** From the start: a future links and finds no mark, an unlock forgets its node,
      which has no waker yet, and then the future stores its waker: off the list,
      linked, with no wake on its way. */
  lemma AnUnlockBeforeTheStoreForgetsTheFuture()
    ensures var acts := [TryLock, Create(1), Attempt(1), Link(1), Look(1), DropGuard, Pop, Store(1, 10)];
      && Legal(START, acts) && var s := After(START, acts);
      && !s.locked && s.guards == 0 && s.list == [] && s.popping == 0 && Carriers(s) == {} && s.trying == map[]
      && s.futs == map[1 := Fut(true, false, Some(10))]
  {
    var s0 := Next(START, TryLock);
    var s1 := Next(s0, Create(1));
    var s2 := Next(s1, Attempt(1));
    assert s2 == State(true, [], map[1 := NEW], 1, 0, map[1 := ToLink], {}, map[], map[], 0, []);
    var s3 := Next(s2, Link(1));
    var s4 := Next(s3, Look(1));
    assert s4 == State(
      true, [1], map[1 := Fut(true, false, None)], 1, 0, map[1 := ToStore], {}, map[], map[1 := 0], 1, []);
    IsForgotten(s4);
    hide Next, Enabled, Carriers;
    LegalStep(s3, [Look(1), DropGuard, Pop, Store(1, 10)]);
    LegalStep(s2, [Link(1), Look(1), DropGuard, Pop, Store(1, 10)]);
    LegalStep(s1, [Attempt(1), Link(1), Look(1), DropGuard, Pop, Store(1, 10)]);
    LegalStep(s0, [Create(1), Attempt(1), Link(1), Look(1), DropGuard, Pop, Store(1, 10)]);
  }

  lemma IsForgotten(s: State)
    requires s == State(
      true, [1], map[1 := Fut(true, false, None)], 1, 0, map[1 := ToStore], {}, map[], map[1 := 0], 1, [])
    ensures Legal(s, [DropGuard, Pop, Store(1, 10)])
    ensures var t := After(s, [DropGuard, Pop, Store(1, 10)]);
      && !t.locked && t.guards == 0 && t.list == [] && t.popping == 0 && Carriers(t) == {} && t.trying == map[]
      && t.futs == map[1 := Fut(true, false, Some(10))]
  {
    var s5 := Next(s, DropGuard);
    IsPopped(s5);
    var s6 := Next(s5, Pop);
    IsStored(s6);
    hide *;
    LegalStep(s5, [Pop, Store(1, 10)]);
    LegalStep(s, [DropGuard, Pop, Store(1, 10)]);
  }

  lemma IsPopped(s: State)
    requires s == State(
      false, [1], map[1 := Fut(true, false, None)], 0, 1, map[1 := ToStore], {}, map[], map[1 := 0], 1, [])
    ensures Next(s, Pop) == s.(popping := 0, list := [])
  {
    var p := Parked(s.(popping := 0));
    assert p[1] == None;
    assert Skipped([1], p) == 1;
  }

  lemma IsStored(s: State)
    requires s == State(
      false, [], map[1 := Fut(true, false, None)], 0, 0, map[1 := ToStore], {}, map[], map[1 := 0], 1, [])
    ensures Legal(s, [Store(1, 10)])
    ensures var t := After(s, [Store(1, 10)]);
      && !t.locked && t.guards == 0 && t.list == [] && t.popping == 0 && Carriers(t) == {} && t.trying == map[]
      && t.futs == map[1 := Fut(true, false, Some(10))]
  {
    var t := Next(s, Store(1, 10));
    assert t.trying == map[] && Carriers(t) == {};
    LegalStep(s, [Store(1, 10)]);
  }

  lemma LegalStep(s: State, acts: seq<Act>)
    requires acts != [] && Enabled(s, acts[0]) && Legal(Next(s, acts[0]), acts[1..])
    ensures Legal(s, acts) && After(s, acts) == After(Next(s, acts[0]), acts[1..])
  {
  }

  /** Each of `order` in turn takes the mutex and gives it back. */
  function Rounds(order: seq<nat>, cx: Waker): seq<Act> {
    if order == [] then [] else [Poll(order[0], cx), DropGuard, Pop] + Rounds(order[1..], cx)
  }

  /** One such round: it takes the mutex, frees it and pops. */
  function Round(s: State, id: nat, cx: Waker): State
    requires Enabled(s, Poll(id, cx)) && Enabled(Next(s, Poll(id, cx)), DropGuard)
  {
    Next(Next(Next(s, Poll(id, cx)), DropGuard), Pop)
  }

  /** A poll that takes the mutex consumes its future. */
  lemma RoundServes(s: State, id: nat, cx: Waker)
    requires Inv(s) && !s.locked && id in s.futs && s.futs[id].woken && id !in s.trying
    requires s.list != [] ==> s.list[0] !in s.trying
    ensures Enabled(s, Poll(id, cx)) && Enabled(Next(s, Poll(id, cx)), DropGuard)
    ensures var t := Round(s, id, cx);
      && Inv(t) && !t.locked && t.futs.Keys == s.futs.Keys - {id} && t.trying == s.trying
      && (s.list == [] ==> t.list == [])
      && (s.list != [] ==> [s.list[0]] + t.list == s.list && s.list[0] in t.futs && t.futs[s.list[0]].woken)
  {
    assert id in s.list ==> ListOk(s, id);
    WithoutAbsent(s.list, id);
    TakeKeeps(s, id, cx);
    var m := Next(s, Poll(id, cx));
    assert m.list == s.list && m.futs == s.futs - {id} && m.guards == 1 && m.trying == s.trying;
    hide Inv;
    RoundPops(m);
  }

  lemma RoundPops(m: State)
    requires Inv(m) && m.guards == 1 && (m.list != [] ==> m.list[0] !in m.trying)
    ensures var t := Next(Next(m, DropGuard), Pop);
      && Inv(t) && !t.locked && t.futs.Keys == m.futs.Keys && t.trying == m.trying
      && (m.list == [] ==> t.list == [])
      && (m.list != [] ==> [m.list[0]] + t.list == m.list && m.list[0] in t.futs && t.futs[m.list[0]].woken)
  {
    FlagKeeps(m, DropGuard);
    var u := Next(m, DropGuard);
    if m.list != [] { assert ListOk(u, u.list[0]); }
    PopWakesTheOldest(u);
    PopKeeps(u);
  }

  /** From any state in which the mutex is free, `id` was woken and neither it nor a
      waiter is in the middle of a poll, polling the woken future and dropping its
      guard, over and over, serves `id` and then every waiter in the order of the
      list, and leaves nobody waiting. */
  lemma {:induction false} WaitersAreServedInOrder(s: State, id: nat, cx: Waker)
    requires Inv(s) && !s.locked && id in s.futs && s.futs[id].woken
    requires forall x :: x in [id] + s.list ==> x !in s.trying
    ensures var acts := Rounds([id] + s.list, cx);
      && Legal(s, acts) && var t := After(s, acts);
      && Inv(t) && !t.locked && t.list == []
      && forall x :: x in t.futs <==> x in s.futs && x != id && x !in s.list
    decreases |s.list|
  {
    RoundServes(s, id, cx);
    var t := Round(s, id, cx);
    hide Next, Enabled, Inv, Legal, After, Rounds, Round;
    if s.list == [] {
      assert [id] + s.list == [id];
    } else {
      WaitersAreServedInOrder(t, s.list[0], cx);
      AllServed(s, t, After(t, Rounds([s.list[0]] + t.list, cx)), id);
    }
    RoundIs(s, id, s.list, cx);
  }

  lemma AllServed(s: State, t: State, u: State, id: nat)
    requires t.futs.Keys == s.futs.Keys - {id} && s.list != [] && [s.list[0]] + t.list == s.list
    requires forall x :: x in u.futs <==> x in t.futs && x != s.list[0] && x !in t.list
    ensures forall x :: x in u.futs <==> x in s.futs && x != id && x !in s.list
  {
    assert forall x :: x in s.list <==> x == s.list[0] || x in t.list;
  }

  lemma RoundIs(s: State, id: nat, rest: seq<nat>, cx: Waker)
    requires Enabled(s, Poll(id, cx)) && Enabled(Next(s, Poll(id, cx)), DropGuard)
    requires Legal(Round(s, id, cx), Rounds(rest, cx))
    ensures Legal(s, Rounds([id] + rest, cx))
    ensures After(s, Rounds([id] + rest, cx)) == After(Round(s, id, cx), Rounds(rest, cx))
  {
    var u := Next(Next(s, Poll(id, cx)), DropGuard);
    assert Enabled(u, Pop);
    RoundsUnfold(id, rest, cx);
    var acts := Rounds([id] + rest, cx);
    hide Next, Enabled, Rounds;
    LegalStep(u, acts[2..]);
    LegalStep(Next(s, Poll(id, cx)), acts[1..]);
    LegalStep(s, acts);
  }

  lemma RoundsUnfold(id: nat, rest: seq<nat>, cx: Waker)
    ensures var acts := Rounds([id] + rest, cx);
      && |acts| > 2 && acts[0] == Poll(id, cx) && acts[1] == DropGuard && acts[2] == Pop
      && acts[1..][1..] == acts[2..] && acts[2..][1..] == Rounds(rest, cx)
  {
    assert ([id] + rest)[1..] == rest;
  }
}
