/** The static executor: K cores running `Executor::run` over their queues.
    A core's control is where it stands in `add`, `run`, `try_steal` or
    `run_task`; the queue operation it is inside of runs step by step in the
    queue machine, interleaved with all other cores. */
module StaticExecutor {
  import opened Ring
  import Q = LifoMachine
  import QI = LifoInvariant

  datatype TaskState = Free | Initialized | Ready | Running | Yielded | Waiting | Unreachable

  datatype Ctl =
    | Setup                      // before `run`
    | AddCall(t: Ptr)            // in `add`, the state swapped, `push` to be called
    | Adding(t: Ptr)             // inside the `push` of `add`
    | Panicked
    | Loop                       // top of the loop of `run`
    | Popping
    | Looking(id: nat)           // the loop of `try_steal` at stealer `id`
    | Stealing(id: nat)
    | Got(t: Ptr)                // `run_task`, before its first swap
    | Polling(t: Ptr)
    | Completed(t: Ptr)          // the poll was ready, before the last swap
    | Parked(t: Ptr)             // the poll was pending, before the store
    | Requeue(t: Ptr)            // before the `push` whose result is ignored
    | Requeueing(t: Ptr)         // inside that `push`

  datatype State = State(
    q: Q.State, ctl: seq<Ctl>, tasks: seq<TaskState>,
    claims: seq<Ptr>)            // history: slots handed out by `TaskPool::init`

  predicate Shape(s: State) { Q.Shape(s.q) && |s.ctl| == |s.q.qs| }

  predicate IsTask(s: State, t: Ptr) { 0 <= t < |s.tasks| }

  predicate Init(s: State) {
    && Shape(s) && Q.Init(s.q) && s.q.n >= 2 && s.claims == []
    && s.q.lost == multiset{}
    && (forall c :: 0 <= c < |s.ctl| ==> s.ctl[c] == Setup && s.q.hands[c] == multiset{})
    && (forall t :: 0 <= t < |s.tasks| ==> s.tasks[t] == Free)
  }

  // ----- steps -----

  datatype Act =
    | Claim(slot: Ptr)
    | AddSwaps(t: Ptr)
    | EnterRun
    | CallPush | CallPop | CallSteal
    | SkipSelf | GiveUp
    | Queue(a: Q.Act)            // one step of the queue operation the core is in
    | Returns
    | RunSwaps
    | PollReady | PollPending
    | Finishes | StoresReady

  /** Queue steps of an operation that has been called: the count function of
      the run loop answers 1, and no drain is ever made. */
  predicate Inside(a: Q.Act) {
    && !a.Start? && !a.Return? && !a.DrainReads? && !a.DrainReleases?
    && (a.BookNone? || a.BookSwaps? || a.BookRetries? ==> a.f == 1)
  }

  function SetCtl(s: State, c: nat, x: Ctl): State
    requires c < |s.ctl|
  {
    s.(ctl := s.ctl[c := x])
  }

  function SetHand(q: Q.State, c: nat, h: multiset<Ptr>): Q.State
    requires c < |q.hands|
  {
    q.(hands := q.hands[c := h])
  }

  predicate AnyStep(s: State, c: nat, a: Act, s': State) {
    && Shape(s) && c < |s.ctl|
    && match a
       case Claim(slot) => ClaimStep(s, slot, s')
       case AddSwaps(t) => AddSwapsStep(s, c, t, s')
       case EnterRun => s.ctl[c] == Setup && s' == SetCtl(s, c, Loop)
       case CallPush => CallPushStep(s, c, s')
       case CallPop => CallPopStep(s, c, s')
       case CallSteal => CallStealStep(s, c, s')
       case SkipSelf => s.ctl[c] == Looking(c) && s' == SetCtl(s, c, Looking(c + 1))
       case GiveUp => s.ctl[c] == Looking(|s.ctl|) && s' == SetCtl(s, c, Loop)
       case Queue(qa) => QueueStep(s, c, qa, s')
       case Returns => ReturnsStep(s, c, s')
       case RunSwaps => RunSwapsStep(s, c, s')
       case PollReady => s.ctl[c].Polling? && s' == SetCtl(s, c, Completed(s.ctl[c].t))
       case PollPending => s.ctl[c].Polling? && s' == SetCtl(s, c, Parked(s.ctl[c].t))
       case Finishes => FinishesStep(s, c, s')
       case StoresReady => StoresReadyStep(s, c, s')
  }

  /** The write of an `add` finds the tail less than a ring past the released head;
      the push itself looks at the booked head only. */
  predicate AddFindsRoom(s: State, c: nat, a: Act) {
    a.Queue? && Shape(s) && c < |s.ctl| && s.ctl[c].Adding? ==> Q.Disciplined(s.q, c, a.a)
  }

  predicate Step(s: State, c: nat, a: Act, s': State) {
    AnyStep(s, c, a, s') && AddFindsRoom(s, c, a)
  }

  /** One successful swap of `TaskPool::init`. */
  predicate ClaimStep(s: State, slot: Ptr, s': State) {
    && IsTask(s, slot) && s.tasks[slot] == Free
    && s' == s.(tasks := s.tasks[slot := Initialized], claims := s.claims + [slot])
  }

  /** `add`: the swap moves an initialized task to ready and leaves any other
      state alone; either way the pointer is pushed. */
  predicate AddSwapsStep(s: State, c: nat, t: Ptr, s': State)
    requires Shape(s) && c < |s.ctl|
  {
    && s.ctl[c] == Setup && IsTask(s, t)
    && s' == SetCtl(s, c, AddCall(t)).(
         tasks := if s.tasks[t] == Initialized then s.tasks[t := Ready] else s.tasks,
         q := SetHand(s.q, c, s.q.hands[c] + multiset{t}))
  }

  predicate CallPushStep(s: State, c: nat, s': State)
    requires Shape(s) && c < |s.ctl|
  {
    var x := s.ctl[c];
    && (x.AddCall? || x.Requeue?)
    && Q.Step(s.q, c, Q.Start(Q.DoPush(x.t)), s'.q)
    && s' == SetCtl(s, c, if x.AddCall? then Adding(x.t) else Requeueing(x.t)).(q := s'.q)
  }

  predicate CallPopStep(s: State, c: nat, s': State)
    requires Shape(s) && c < |s.ctl|
  {
    && s.ctl[c] == Loop
    && Q.Step(s.q, c, Q.Start(Q.DoPop), s'.q)
    && s' == SetCtl(s, c, Popping).(q := s'.q)
  }

  predicate CallStealStep(s: State, c: nat, s': State)
    requires Shape(s) && c < |s.ctl|
  {
    var x := s.ctl[c];
    && x.Looking? && x.id < |s.ctl| && x.id != c
    && Q.Step(s.q, c, Q.Start(Q.DoSteal(x.id, true)), s'.q)
    && s' == SetCtl(s, c, Stealing(x.id)).(q := s'.q)
  }

  predicate QueueStep(s: State, c: nat, a: Q.Act, s': State)
    requires Shape(s) && c < |s.ctl|
  {
    && Inside(a)
    && Q.Step(s.q, c, a, s'.q) && Q.Timely(s.q, c)
    && s' == s.(q := s'.q)
  }

  /** The operation's result decides where the core goes on. */
  function After(x: Ctl, r: Q.Result): Ctl {
    match x
    case Adding(t) => if r.Pushed? then Setup else Panicked
    case Popping => if r.Popped? then Got(r.item) else Looking(0)
    case Stealing(id) => if r.StolePopped? then Got(r.item) else Looking(id + 1)
    case _ => Loop
  }

  predicate ReturnsStep(s: State, c: nat, s': State)
    requires Shape(s) && c < |s.ctl|
  {
    var x, pc := s.ctl[c], s.q.pcs[c];
    && (x.Adding? || x.Popping? || x.Stealing? || x.Requeueing?)
    && pc.Done?
    && Q.Step(s.q, c, Q.Return, s'.q)
    && s' == SetCtl(s, c, After(x, pc.result)).(q := s'.q)
  }

  /** Only a ready task is polled; any other entry is dropped here. */
  predicate RunSwapsStep(s: State, c: nat, s': State)
    requires Shape(s) && c < |s.ctl|
  {
    var x := s.ctl[c];
    && x.Got? && IsTask(s, x.t)
    && s' == if s.tasks[x.t] == Ready
             then SetCtl(s, c, Polling(x.t)).(tasks := s.tasks[x.t := Running])
             else SetCtl(s, c, Loop).(q := SetHand(s.q, c, s.q.hands[c] - multiset{x.t}))
  }

  predicate FinishesStep(s: State, c: nat, s': State)
    requires Shape(s) && c < |s.ctl|
  {
    var x := s.ctl[c];
    && x.Completed? && IsTask(s, x.t)
    && s' == SetCtl(s, c, Loop).(
         tasks := if s.tasks[x.t] == Running then s.tasks[x.t := Unreachable] else s.tasks,
         q := SetHand(s.q, c, s.q.hands[c] - multiset{x.t}))
  }

  predicate StoresReadyStep(s: State, c: nat, s': State)
    requires Shape(s) && c < |s.ctl|
  {
    var x := s.ctl[c];
    && x.Parked? && IsTask(s, x.t)
    && s' == SetCtl(s, c, Requeue(x.t)).(tasks := s.tasks[x.t := Ready])
  }
}
