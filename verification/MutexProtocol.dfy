/** The mutex as a machine: any number of lock futures, guards and callers, with
    polls, unlocks and drops as the steps.  A poll that finds the mutex locked may
    be one step, or four: the failed attempt, the link, the look at the node's mark
    and the store of the waker.  An unlock is two: it frees the flag, then pops. */
module MutexProtocol {
  import opened Options
  import opened WaitList

  /** What a future in the middle of a poll does next. */
  datatype Phase = ToLink | ToLook | ToStore

  /** `popping` counts the unlocks that have freed the flag and are yet to pop,
      `trying` holds the futures in the middle of a poll, `pending` those woken with
      no poll begun since, `last` the waker that each future stored last, `stamp`
      the time each node was last linked, and `log` the link times of the nodes
      that unlocks have woken. */
  datatype State = State(
    locked: bool,
    list: seq<nat>,
    futs: map<nat, Fut>,
    guards: nat,
    popping: nat,
    trying: map<nat, Phase>,
    pending: set<nat>,
    last: map<nat, Waker>,
    stamp: map<nat, nat>,
    clock: nat,
    log: seq<nat>)

  /** A future that returned its guard is consumed: its drop does nothing. */
  datatype Act =
    | Create(id: nat)
    | Poll(id: nat, cx: Waker)
    | Attempt(id: nat)
    | Link(id: nat)
    | Look(id: nat)
    | Store(id: nat, cx: Waker)
    | TryLock
    | DropGuard
    | Pop
    | DropFuture(id: nat)

  const START := State(false, [], map[], 0, 0, map[], {}, map[], map[], 0, [])

  predicate InPhase(s: State, id: nat, p: Phase) { id in s.trying && s.trying[id] == p }

  predicate Enabled(s: State, a: Act) {
    match a
    case Create(id) => id !in s.futs
    case Poll(id, _) => id in s.futs && id !in s.trying
    case Attempt(id) => id in s.futs && id !in s.trying && s.locked
    case Link(id) => id in s.futs && InPhase(s, id, ToLink)
    case Look(id) => id in s.futs && InPhase(s, id, ToLook)
    case Store(id, _) => id in s.futs && InPhase(s, id, ToStore)
    case TryLock => true
    case DropGuard => s.guards > 0
    case Pop => s.popping > 0
    case DropFuture(id) => id in s.futs && id !in s.trying
  }

  function Next(s: State, a: Act): State
    requires Enabled(s, a)
  {
    match a
    case Create(id) => s.(futs := s.futs[id := Fut(false, false, None)])
    case Poll(id, cx) => AfterPoll(s, id, cx, PollSpec(s.locked, s.list, id, s.futs[id], cx))
    case Attempt(id) => s.(trying := s.trying[id := ToLink], pending := s.pending - {id})
    case Link(id) => AfterLink(s, id)
    case Look(id) => AfterLook(s, id)
    case Store(id, cx) =>
      s.(futs := s.futs[id := s.futs[id].(waker := Some(cx))], last := s.last[id := cx], trying := s.trying - {id})
    case TryLock => if s.locked then s else s.(locked := true, guards := s.guards + 1)
    case DropGuard => s.(locked := false, guards := s.guards - 1, popping := s.popping + 1)
    case Pop => AfterPop(s.(popping := s.popping - 1))
    case DropFuture(id) =>
      s.(list := if s.futs[id].linked then Without(s.list, id) else s.list,
         futs := s.futs - {id}, pending := s.pending - {id}, last := s.last - {id})
  }

  function AfterPoll(s: State, id: nat, cx: Waker, p: Polled<nat>): State
    requires id in s.futs
  {
    var links := |p.list| > |s.list|;
    State(
      p.locked, p.list,
      if p.ready then s.futs - {id} else s.futs[id := p.fut],
      if p.ready then s.guards + 1 else s.guards,
      s.popping,
      s.trying,
      if p.selfWake then s.pending + {id} else s.pending - {id},
      if p.ready then s.last - {id} else if p.selfWake then s.last else s.last[id := cx],
      if links then s.stamp[id := s.clock] else s.stamp,
      if links then s.clock + 1 else s.clock,
      s.log)
  }

  /** Links the node unless it is linked, whatever has happened to the mutex. */
  function AfterLink(s: State, id: nat): State
    requires id in s.futs
  {
    var t := s.(trying := s.trying[id := ToLook]);
    if s.futs[id].linked then t
    else
      t.(list := s.list + [id], futs := s.futs[id := s.futs[id].(linked := true)],
         stamp := s.stamp[id := s.clock], clock := s.clock + 1)
  }

  /** A marked future unlinks and wakes itself, and its poll ends. */
  function AfterLook(s: State, id: nat): State
    requires id in s.futs
  {
    if s.futs[id].woken then
      s.(list := Without(s.list, id), futs := s.futs[id := s.futs[id].(linked := false, woken := false)],
         pending := s.pending + {id}, trying := s.trying - {id})
    else s.(trying := s.trying[id := ToStore])
  }

  function Parked(s: State): map<nat, Option<Waker>> {
    map id | id in s.futs :: s.futs[id].waker
  }

  /** How many nodes without a waker the next pop would take and forget. */
  function Forgets(s: State): nat { Skipped(s.list, Parked(s)) }

  /** The waiters it skips drop out of the list, the one it wakes is marked. */
  function AfterPop(s: State): State {
    var k := Forgets(s);
    if k < |s.list| && s.list[k] in s.futs && s.list[k] in s.stamp then
      var id := s.list[k];
      s.(list := s.list[k + 1..], futs := s.futs[id := s.futs[id].(woken := true, waker := None)],
         pending := s.pending + {id}, log := s.log + [s.stamp[id]])
    else s.(list := [])
  }

  // ----- what holds in every reachable state -----

  predicate Locking(s: State) {
    s.guards == if s.locked then 1 else 0
  }

  /** A node in the list belongs to a live, unmarked future that has no wake on its
      way; it has a waker unless its future is between link and store. */
  predicate ListOk(s: State, id: nat) {
    && id in s.futs && id in s.stamp && s.stamp[id] < s.clock
    && s.futs[id].linked && !s.futs[id].woken && id !in s.pending
    && (s.futs[id].waker == None ==> id in s.trying && s.trying[id] != ToLink)
  }

  /** A stored waker is the latest; a marked future is linked, and will poll again
      or is yet to look; an unlinked one has stored no waker, is being polled or
      will poll again. */
  predicate FutOk(s: State, id: nat)
    requires id in s.futs
  {
    var f := s.futs[id];
    && (f.waker.Some? ==> id in s.last && f.waker == Some(s.last[id]))
    && (f.woken ==> f.linked && (id in s.pending || InPhase(s, id, ToLink) || InPhase(s, id, ToLook)))
    && (!f.linked && id in s.last ==> id in s.pending || id in s.trying)
    && (id in s.trying && s.trying[id] != ToLink ==> f.linked)
    && (id in s.trying && id in s.pending ==> f.woken)
  }

  predicate Placed(s: State) {
    && (forall id :: id in s.list ==> ListOk(s, id))
    && (forall id :: id in s.futs ==> FutOk(s, id))
    && s.pending <= s.futs.Keys && s.last.Keys <= s.futs.Keys && s.trying.Keys <= s.futs.Keys
  }

  /** The list is ordered by link time, and so is the log, all of it earlier. */
  predicate Ordered(list: seq<nat>, stamp: map<nat, nat>, log: seq<nat>) {
    && (forall id :: id in list ==> id in stamp)
    && (forall i, j :: 0 <= i < j < |list| ==> stamp[list[i]] < stamp[list[j]])
    && (forall i, j :: 0 <= i < j < |log| ==> log[i] < log[j])
    && (forall i, j :: 0 <= i < |log| && 0 <= j < |list| ==> log[i] < stamp[list[j]])
  }

  predicate Inv(s: State) {
    Locking(s) && Placed(s) && Ordered(s.list, s.stamp, s.log) && forall i :: 0 <= i < |s.log| ==> s.log[i] < s.clock
  }

  /** The futures that will poll again without another unlock: woken ones, and
      marked ones in the middle of a poll that are yet to look. */
  function Carriers(s: State): set<nat> {
    s.pending + set id | id in s.trying && id in s.futs && s.futs[id].woken && s.trying[id] != ToStore
  }

  /** While the mutex is free and somebody waits, some future has a wake on its way
      or some unlock is yet to pop. */
  predicate NoLostWake(s: State) {
    !s.locked && s.list != [] ==> Carriers(s) != {} || s.popping > 0
  }

  /** A linked future that no unlock has marked can be found by the next pop. */
  predicate NobodyStranded(s: State) {
    forall id :: id in s.futs && s.futs[id].linked && !s.futs[id].woken ==> id in s.list
  }

  predicate Awake(s: State) { NoLostWake(s) && NobodyStranded(s) }

  /** The step drops the one wake on its way to a free mutex with waiters, links the
      first waiter of a free mutex with no wake on its way, or pops while the oldest
      node has no waker yet. */
  predicate Loses(s: State, a: Act) {
    match a
    case DropFuture(id) => !s.locked && s.popping == 0 && s.list != [] && Carriers(s) == {id}
    case Link(id) =>
      id in s.futs && !s.futs[id].linked && !s.locked && s.popping == 0 && s.list == [] && Carriers(s) == {}
    case Pop => Forgets(s) > 0
    case _ => false
  }

  lemma WithoutHas(list: seq<nat>, x: nat, k: nat)
    requires k < |list| && list[k] == x && forall i, j :: 0 <= i < j < |list| ==> list[i] != list[j]
    ensures var r := list[..k] + list[k + 1..]; forall id :: id in r <==> id in list && id != x
  {
    var r := list[..k] + list[k + 1..];
    assert list == list[..k] + [x] + list[k + 1..];
  }

  lemma CutOrdered(list: seq<nat>, k: nat, stamp: map<nat, nat>, log: seq<nat>)
    requires k < |list| && Ordered(list, stamp, log)
    ensures Ordered(list[..k] + list[k + 1..], stamp, log)
  {
    var r := list[..k] + list[k + 1..];
    assert forall i :: 0 <= i < |r| ==> r[i] == list[if i < k then i else i + 1];
  }

  lemma WithoutOrdered(list: seq<nat>, x: nat, stamp: map<nat, nat>, log: seq<nat>)
    requires Ordered(list, stamp, log)
    ensures Ordered(Without(list, x), stamp, log)
    ensures forall id :: id in Without(list, x) <==> id in list && id != x
  {
    if x in list {
      var k :| 0 <= k < |list| && list[k] == x;
      CutOrdered(list, k, stamp, log);
      assert forall i, j :: 0 <= i < j < |list| ==> list[i] != list[j];
      hide Ordered;
      WithoutAt(list, x, k);
      WithoutHas(list, x, k);
    } else {
      WithoutAbsent(list, x);
    }
  }

  lemma LinkOrdered(list: seq<nat>, x: nat, stamp: map<nat, nat>, log: seq<nat>, t: nat)
    requires Ordered(list, stamp, log) && x !in list
    requires forall id :: id in list ==> stamp[id] < t
    requires forall i :: 0 <= i < |log| ==> log[i] < t
    ensures Ordered(list + [x], stamp[x := t], log)
  {
  }

  /** Nothing but future `id` and its place has changed. */
  lemma OneFuture(s: State, id: nat, t: State)
    requires Placed(s) && t.futs.Keys + {id} == s.futs.Keys + {id} && s.clock <= t.clock
    requires forall x :: x in s.futs && x != id ==> t.futs[x] == s.futs[x]
    requires forall x :: x != id ==> (x in t.list ==> x in s.list) && (x in t.pending <==> x in s.pending)
    requires forall x :: x != id ==> (x in t.trying <==> x in s.trying) && (x in t.last <==> x in s.last)
    requires forall x :: x != id && x in t.trying ==> t.trying[x] == s.trying[x]
    requires forall x :: x != id && x in t.last ==> t.last[x] == s.last[x]
    requires forall x :: x != id && x in s.stamp ==> x in t.stamp && t.stamp[x] == s.stamp[x]
    requires if id in t.futs then (id in t.list ==> ListOk(t, id)) && FutOk(t, id)
             else id !in t.list && id !in t.pending && id !in t.trying && id !in t.last
    ensures Placed(t)
  {
    forall x | x in t.list ensures ListOk(t, x) { assert x != id ==> ListOk(s, x); }
    forall x | x in t.futs ensures FutOk(t, x) { assert x != id ==> FutOk(s, x); }
  }

  lemma CreateKeeps(s: State, id: nat)
    requires Inv(s) && Enabled(s, Create(id))
    ensures Inv(Next(s, Create(id)))
  {
    hide Ordered;
    assert id in s.list ==> ListOk(s, id);
    OneFuture(s, id, Next(s, Create(id)));
  }

  /** A poll of a free mutex takes it, and its future is gone. */
  lemma TakeIs(s: State, id: nat, cx: Waker)
    requires Inv(s) && Enabled(s, Poll(id, cx)) && !s.locked
    ensures Next(s, Poll(id, cx)) == s.(
      locked := true, list := Without(s.list, id), futs := s.futs - {id}, guards := 1,
      pending := s.pending - {id}, last := s.last - {id})
  {
    hide Ordered;
    if s.futs[id].linked {
      WithoutIsNoLonger(s.list, id);
    } else {
      assert id in s.list ==> ListOk(s, id);
      WithoutAbsent(s.list, id);
    }
  }

  lemma {:induction false} WithoutIsNoLonger(list: seq<nat>, x: nat)
    ensures |Without(list, x)| <= |list|
  {
    if list != [] { WithoutIsNoLonger(list[1..], x); }
  }

  lemma TakeKeeps(s: State, id: nat, cx: Waker)
    requires Inv(s) && Enabled(s, Poll(id, cx)) && !s.locked
    ensures Inv(Next(s, Poll(id, cx)))
    ensures NobodyStranded(s) ==> NobodyStranded(Next(s, Poll(id, cx)))
  {
    TakeIs(s, id, cx);
    WithoutOrdered(s.list, id, s.stamp, s.log);
    hide Ordered, Next, ListOk, FutOk;
    OneFuture(s, id, Next(s, Poll(id, cx)));
  }

  lemma AttemptKeeps(s: State, id: nat)
    requires Inv(s) && Enabled(s, Attempt(id))
    ensures Inv(Next(s, Attempt(id)))
  {
    hide Ordered;
    assert FutOk(s, id) && (id in s.list ==> ListOk(s, id));
    OneFuture(s, id, Next(s, Attempt(id)));
  }

  lemma LinkKeeps(s: State, id: nat)
    requires Inv(s) && Enabled(s, Link(id))
    ensures Inv(Next(s, Link(id)))
  {
    assert FutOk(s, id) && (id in s.list ==> ListOk(s, id));
    if !s.futs[id].linked {
      forall x | x in s.list ensures s.stamp[x] < s.clock { assert ListOk(s, x); }
      LinkOrdered(s.list, id, s.stamp, s.log, s.clock);
    }
    hide Ordered;
    OneFuture(s, id, Next(s, Link(id)));
  }

  lemma LookKeeps(s: State, id: nat)
    requires Inv(s) && Enabled(s, Look(id))
    ensures Inv(Next(s, Look(id)))
  {
    assert FutOk(s, id) && (id in s.list ==> ListOk(s, id));
    if s.futs[id].woken { WithoutAbsent(s.list, id); }
    hide Ordered;
    OneFuture(s, id, Next(s, Look(id)));
  }

  lemma StoreKeeps(s: State, id: nat, cx: Waker)
    requires Inv(s) && Enabled(s, Store(id, cx))
    ensures Inv(Next(s, Store(id, cx)))
  {
    hide Ordered;
    assert FutOk(s, id) && (id in s.list ==> ListOk(s, id));
    OneFuture(s, id, Next(s, Store(id, cx)));
  }

  lemma DropKeeps(s: State, id: nat)
    requires Inv(s) && Enabled(s, DropFuture(id))
    ensures Inv(Next(s, DropFuture(id)))
    ensures NobodyStranded(s) ==> NobodyStranded(Next(s, DropFuture(id)))
  {
    WithoutOrdered(s.list, id, s.stamp, s.log);
    hide Ordered;
    assert id in s.list ==> ListOk(s, id);
    OneFuture(s, id, Next(s, DropFuture(id)));
  }

  /** What the first three steps of a poll of a locked mutex come to. */
  lemma ThreeSteps(s: State, id: nat)
    requires Inv(s) && Enabled(s, Attempt(id))
    ensures Enabled(Next(s, Attempt(id)), Link(id)) && Enabled(Next(Next(s, Attempt(id)), Link(id)), Look(id))
    ensures var f, l := s.futs[id], Next(Next(Next(s, Attempt(id)), Link(id)), Look(id));
      if f.woken then
        l == s.(pending := s.pending + {id}, futs := s.futs[id := Fut(false, false, f.waker)])
      else
        var t := s.(pending := s.pending - {id}, trying := s.trying[id := ToStore]);
        l == if f.linked then t
             else t.(list := s.list + [id], futs := s.futs[id := Fut(true, false, f.waker)],
                     stamp := s.stamp[id := s.clock], clock := s.clock + 1)
  {
    var f := s.futs[id];
    assert FutOk(s, id) && (id in s.list ==> ListOk(s, id));
    if f.woken { WithoutAbsent(s.list, id); }
    assert s.trying[id := ToLink][id := ToLook] - {id} == s.trying;
    assert s.trying[id := ToLink][id := ToLook][id := ToStore] == s.trying[id := ToStore];
    assert s.pending - {id} + {id} == s.pending + {id};
  }

  lemma ParkIs(s: State, id: nat, cx: Waker)
    requires Inv(s) && Enabled(s, Poll(id, cx)) && s.locked
    ensures var f := s.futs[id];
      if f.woken then
        Next(s, Poll(id, cx)) == s.(pending := s.pending + {id}, futs := s.futs[id := Fut(false, false, f.waker)])
      else
        var t := s.(pending := s.pending - {id}, futs := s.futs[id := Fut(true, false, Some(cx))],
                    last := s.last[id := cx]);
        Next(s, Poll(id, cx)) == if f.linked then t
          else t.(list := s.list + [id], stamp := s.stamp[id := s.clock], clock := s.clock + 1)
  {
    hide Ordered;
    assert FutOk(s, id) && (id in s.list ==> ListOk(s, id));
    if s.futs[id].woken { WithoutAbsent(s.list, id); }
  }

  /** A whole poll of a locked mutex is its steps, with nothing in between. */
  lemma PollIsItsSteps(s: State, id: nat, cx: Waker)
    requires Inv(s) && Enabled(s, Poll(id, cx)) && s.locked
    ensures Enabled(s, Attempt(id)) && Enabled(Next(s, Attempt(id)), Link(id))
    ensures Enabled(Next(Next(s, Attempt(id)), Link(id)), Look(id))
    ensures var l := Next(Next(Next(s, Attempt(id)), Link(id)), Look(id));
      if s.futs[id].woken then Next(s, Poll(id, cx)) == l
      else Enabled(l, Store(id, cx)) && Next(s, Poll(id, cx)) == Next(l, Store(id, cx))
  {
    hide Inv, AfterPoll, PollSpec, AfterLink, AfterLook, AfterPop;
    ThreeSteps(s, id);
    ParkIs(s, id, cx);
    if !s.futs[id].woken {
      var l := Next(Next(Next(s, Attempt(id)), Link(id)), Look(id));
      StoreIs(l, id, cx);
      assert s.trying[id := ToStore] - {id} == s.trying;
    }
  }

  lemma StoreIs(s: State, id: nat, cx: Waker)
    requires id in s.futs && InPhase(s, id, ToStore)
    ensures Enabled(s, Store(id, cx))
    ensures Next(s, Store(id, cx)) ==
      s.(futs := s.futs[id := s.futs[id].(waker := Some(cx))], last := s.last[id := cx], trying := s.trying - {id})
  {
  }

  lemma ParkKeeps(s: State, id: nat, cx: Waker)
    requires Inv(s) && Enabled(s, Poll(id, cx)) && s.locked
    ensures Inv(Next(s, Poll(id, cx)))
  {
    PollIsItsSteps(s, id, cx);
    hide Inv, Next, Enabled;
    var a := Next(s, Attempt(id));
    var b := Next(a, Link(id));
    var c := Next(b, Look(id));
    AttemptKeeps(s, id);
    LinkKeeps(a, id);
    LookKeeps(b, id);
    if !s.futs[id].woken { StoreKeeps(c, id, cx); }
  }

  // ----- unlock -----

  /** A pop forgets the nodes at the front whose futures have yet to store a
      waker, and marks and wakes the one linked longest ago of the others. */
  lemma PopWakesTheOldest(s: State)
    requires Inv(s) && Enabled(s, Pop)
    ensures var t, k := Next(s, Pop), Forgets(s);
      && t.locked == s.locked && t.guards == s.guards && t.popping == s.popping - 1 && t.last == s.last
      && t.stamp == s.stamp && t.clock == s.clock && t.trying == s.trying && k <= |s.list|
      && (forall i :: 0 <= i < k ==> ListOk(s, s.list[i]) && s.futs[s.list[i]].waker == None)
      && (k == |s.list| ==> t.list == [] && t.futs == s.futs && t.pending == s.pending && t.log == s.log)
      && (k < |s.list| ==> var id := s.list[k];
            && ListOk(s, id) && s.futs[id].waker.Some? && t.list == s.list[k + 1..]
            && t.futs == s.futs[id := Fut(true, true, None)]
            && t.pending == s.pending + {id} && t.log == s.log + [s.stamp[id]])
  {
    var k := Forgets(s);
    assert Parked(s) == Parked(s.(popping := s.popping - 1));
    forall i | 0 <= i < k ensures ListOk(s, s.list[i]) && s.futs[s.list[i]].waker == None {
      assert s.list[i] in s.list;
    }
    if k < |s.list| { assert ListOk(s, s.list[k]); }
  }

  /** The one it wakes has been in the list for longer than all that stay there. */
  lemma TheWokenIsOlder(s: State, x: nat)
    requires Inv(s) && Enabled(s, Pop) && Forgets(s) < |s.list| && x in Next(s, Pop).list
    ensures x in s.stamp && s.list[Forgets(s)] in s.stamp && s.stamp[s.list[Forgets(s)]] < s.stamp[x]
  {
    PopWakesTheOldest(s);
    var k := Forgets(s);
    var i :| 0 <= i < |s.list[k + 1..]| && s.list[k + 1..][i] == x;
    assert s.list[k + 1 + i] == x;
  }

  lemma PopOrdered(list: seq<nat>, k: nat, stamp: map<nat, nat>, log: seq<nat>)
    requires k < |list| && Ordered(list, stamp, log)
    ensures Ordered(list[k + 1..], stamp, log + [stamp[list[k]]])
    ensures forall i :: 0 <= i <= k ==> list[i] !in list[k + 1..]
  {
    var t := list[k + 1..];
    assert forall i :: 0 <= i < |t| ==> t[i] == list[i + k + 1];
  }

  lemma PopKeeps(s: State)
    requires Inv(s) && Enabled(s, Pop)
    ensures Inv(Next(s, Pop))
  {
    var t, k := Next(s, Pop), Forgets(s);
    PopWakesTheOldest(s);
    hide Next, Forgets;
    if k == |s.list| {
      forall x | x in t.futs ensures FutOk(t, x) { assert FutOk(s, x); }
    } else {
      PopOrdered(s.list, k, s.stamp, s.log);
      hide Ordered;
      OneFuture(s, s.list[k], t);
    }
  }

  /** It strands somebody exactly if it forgets a node. */
  lemma PopStrandsExactly(s: State)
    requires Inv(s) && NobodyStranded(s) && Enabled(s, Pop)
    ensures NobodyStranded(Next(s, Pop)) <==> Forgets(s) == 0
  {
    var t, k := Next(s, Pop), Forgets(s);
    PopWakesTheOldest(s);
    hide Next, Forgets;
    if k > 0 {
      var x := s.list[0];
      assert ListOk(s, x);
      if k < |s.list| { PopOrdered(s.list, k, s.stamp, s.log); }
      assert x in t.futs && x !in t.list && t.futs[x].linked && !t.futs[x].woken;
    } else if s.list != [] {
      forall x | x in t.futs && t.futs[x].linked && !t.futs[x].woken ensures x in t.list {
        assert x in s.list && x != s.list[0];
      }
    }
  }

  /** Every step keeps the invariant; no step of any kind is excluded. */
  lemma StepKeeps(s: State, a: Act)
    requires Inv(s) && Enabled(s, a)
    ensures Inv(Next(s, a))
  {
    match a
    case Create(id) => CreateKeeps(s, id);
    case Poll(id, cx) => if s.locked { ParkKeeps(s, id, cx); } else { TakeKeeps(s, id, cx); }
    case Attempt(id) => AttemptKeeps(s, id);
    case Link(id) => LinkKeeps(s, id);
    case Look(id) => LookKeeps(s, id);
    case Store(id, cx) => StoreKeeps(s, id, cx);
    case TryLock => FlagKeeps(s, a);
    case DropGuard => FlagKeeps(s, a);
    case Pop => PopKeeps(s);
    case DropFuture(id) => DropKeeps(s, id);
  }

  lemma FlagKeeps(s: State, a: Act)
    requires Inv(s) && Enabled(s, a) && (a.TryLock? || a.DropGuard?)
    ensures Inv(Next(s, a))
  {
    var t := Next(s, a);
    forall x | x in t.list ensures ListOk(t, x) { assert ListOk(s, x); }
    forall x | x in t.futs ensures FutOk(t, x) { assert FutOk(s, x); }
  }

  // ----- wakes -----

  /** A step of one future's poll that neither links nor ends with a wake of its own. */
  lemma SameCarriers(s: State, id: nat, t: State)
    requires Inv(s) && id in s.trying && id in s.futs && id in t.futs && t.futs == s.futs[id := t.futs[id]]
    requires id in Carriers(t) <==> id in Carriers(s)
    requires forall x :: x != id ==>
      (x in t.pending <==> x in s.pending) && (x in t.trying <==> x in s.trying)
    requires forall x :: x != id && x in s.trying ==> t.trying[x] == s.trying[x]
    ensures Carriers(t) == Carriers(s)
  {
    forall x ensures x in Carriers(t) <==> x in Carriers(s) {
    }
  }

  /** A link loses the wake exactly if the mutex is free, nobody waits and no wake is
      on its way: nothing looks at the flag again after linking. */
  lemma LinkKeepsExactly(s: State, id: nat)
    requires Inv(s) && Awake(s) && Enabled(s, Link(id))
    ensures Awake(Next(s, Link(id))) <==> !Loses(s, Link(id))
  {
    var t := Next(s, Link(id));
    assert FutOk(s, id);
    SameCarriers(s, id, t);
  }

  /** Looking and storing lose nothing. */
  lemma LookKeepsWakes(s: State, id: nat)
    requires Inv(s) && Awake(s) && Enabled(s, Look(id))
    ensures Awake(Next(s, Look(id)))
  {
    var t := Next(s, Look(id));
    assert FutOk(s, id) && (id in s.list ==> ListOk(s, id));
    if s.futs[id].woken { WithoutAbsent(s.list, id); }
    SameCarriers(s, id, t);
  }

  lemma StoreKeepsWakes(s: State, id: nat, cx: Waker)
    requires Inv(s) && Awake(s) && Enabled(s, Store(id, cx))
    ensures Awake(Next(s, Store(id, cx)))
  {
    var t := Next(s, Store(id, cx));
    assert FutOk(s, id);
    SameCarriers(s, id, t);
  }

  lemma ParkKeepsWakes(s: State, id: nat, cx: Waker)
    requires Inv(s) && Awake(s) && Enabled(s, Poll(id, cx)) && s.locked
    ensures Awake(Next(s, Poll(id, cx)))
  {
    var t := Next(s, Poll(id, cx));
    assert FutOk(s, id) && (id in s.list ==> ListOk(s, id));
    if s.futs[id].woken { WithoutAbsent(s.list, id); }
  }

  lemma DropKeepsExactly(s: State, id: nat)
    requires Inv(s) && Awake(s) && Enabled(s, DropFuture(id))
    ensures Awake(Next(s, DropFuture(id))) <==> !Loses(s, DropFuture(id))
  {
    var t := Next(s, DropFuture(id));
    DropKeeps(s, id);
    assert Carriers(t) == Carriers(s) - {id};
    if s.futs[id].linked { WithoutOrdered(s.list, id, s.stamp, s.log); }
    if s.list == [] { return; }
    assert ListOk(s, s.list[0]);
    assert s.list[0] !in Carriers(s);
    if Loses(s, DropFuture(id)) {
      assert s.list[0] in t.list;
    } else if t.list != [] && !s.locked && s.popping == 0 {
      var x :| x in Carriers(s) && x != id;
      assert x in Carriers(t);
    }
  }

  lemma PopKeepsExactly(s: State)
    requires Inv(s) && Awake(s) && Enabled(s, Pop)
    ensures Awake(Next(s, Pop)) <==> !Loses(s, Pop)
  {
    PopStrandsExactly(s);
    PopWakesTheOldest(s);
    if Forgets(s) < |s.list| { assert s.list[Forgets(s)] in Carriers(Next(s, Pop)); }
  }

  /** Every step keeps everybody awake, except exactly those that `Loses` names. */
  lemma StepKeepsWakesExactly(s: State, a: Act)
    requires Inv(s) && Awake(s) && Enabled(s, a)
    ensures Awake(Next(s, a)) <==> !Loses(s, a)
  {
    match a
    case Pop => PopKeepsExactly(s);
    case DropFuture(id) => DropKeepsExactly(s, id);
    case Link(id) => LinkKeepsExactly(s, id);
    case Look(id) => LookKeepsWakes(s, id);
    case Store(id, cx) => StoreKeepsWakes(s, id, cx);
    case Poll(id, cx) => if s.locked { ParkKeepsWakes(s, id, cx); } else { TakeKeeps(s, id, cx); }
    case _ =>
  }

  /** Whoever carries a wake takes the mutex if it is still free when it polls. */
  lemma TheWokenTakeIt(s: State, id: nat, cx: Waker)
    requires Inv(s) && !s.locked && id in s.pending && id !in s.trying
    ensures Enabled(s, Poll(id, cx))
    ensures var t := Next(s, Poll(id, cx)); t.locked && t.guards == 1 && id !in t.futs && t.list == s.list
  {
    assert id in s.list ==> ListOk(s, id);
    WithoutAbsent(s.list, id);
  }

  // ----- the wakes that pops issue -----

  /** The same as `NoLostWake`, with a wake that a pop issued. */
  predicate Guarded(s: State) {
    !s.locked && s.list != [] && s.popping == 0 ==> exists id :: id in s.futs && s.futs[id].woken
  }

  lemma GuardedMeansNoLostWake(s: State)
    requires Inv(s) && Guarded(s)
    ensures NoLostWake(s)
  {
    if !s.locked && s.list != [] && s.popping == 0 {
      var id :| id in s.futs && s.futs[id].woken;
      assert FutOk(s, id);
      assert id in Carriers(s);
    }
  }

  /** Dropping futures whose nodes were not popped keeps a popped one around, as
      long as nobody links or looks in front of a free mutex. */
  lemma StepStaysGuarded(s: State, a: Act)
    requires Inv(s) && Guarded(s) && Enabled(s, a)
    requires (a.DropFuture? ==> !s.futs[a.id].woken) && (a.Link? || a.Look? ==> s.locked)
    ensures Guarded(Next(s, a))
  {
    var t := Next(s, a);
    if t.locked || t.list == [] || t.popping > 0 { return; }
    if a.Pop? {
      PopWakesTheOldest(s);
      assert t.futs[s.list[Forgets(s)]].woken;
    } else {
      var id :| id in s.futs && s.futs[id].woken;
      assert t.futs[id].woken;
    }
  }
}
