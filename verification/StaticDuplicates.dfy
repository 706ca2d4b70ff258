/** A run of two cores in which one slot is added twice and both of its entries
    are polled: duplicates collapse only while their task is not ready. */
module StaticDuplicates {
  import opened Ring
  import opened StaticExecutor
  import opened StaticRuns
  import L = LifoMachine

  /** The move begins a poll of `t`. */
  predicate Begins(s: State, m: Move, t: Ptr) {
    m.act.RunSwaps? && m.core < |s.ctl| && s.ctl[m.core] == Got(t) && IsTask(s, t) && s.tasks[t] == Ready
  }

  function Polls(ss: seq<State>, ms: seq<Move>, i: nat, t: Ptr): nat
    requires i <= |ms| < |ss|
  {
    if i == 0 then 0 else Polls(ss, ms, i - 1, t) + if Begins(ss[i - 1], ms[i - 1], t) then 1 else 0
  }

  /** Some run ends in `s`, has added entries of task 0 `adds` times, has begun
      `polls` polls of it, and has ended none of its entries. */
  ghost predicate Reaches(adds: nat, polls: nat, s: State) {
    exists ss, ms :: Leads(ss, ms, adds, polls, s)
  }

  ghost predicate Leads(ss: seq<State>, ms: seq<Move>, adds: nat, polls: nat, s: State) {
    && IsRun(ss, ms) && ss[|ms|] == s
    && Added(ms, |ms|, 0) == adds && Polls(ss, ms, |ms|, 0) == polls && Ended(ss, ms, |ms|, 0) == 0
  }

  lemma {:induction false} Prefix(ss: seq<State>, ms: seq<Move>, s: State, m: Move, i: nat)
    requires i <= |ms| < |ss|
    ensures Added(ms + [m], i, 0) == Added(ms, i, 0)
    ensures Polls(ss + [s], ms + [m], i, 0) == Polls(ss, ms, i, 0)
    ensures Ended(ss + [s], ms + [m], i, 0) == Ended(ss, ms, i, 0)
  {
    if i > 0 { Prefix(ss, ms, s, m, i - 1); }
  }

  lemma Extends(adds: nat, polls: nat, s: State, m: Move, s': State)
    requires Reaches(adds, polls, s) && Step(s, m.core, m.act, s') && !Ends(s, m, 0)
    ensures Reaches(adds + (if m.act == AddSwaps(0) then 1 else 0), polls + (if Begins(s, m, 0) then 1 else 0), s')
  {
    hide Step, Init;
    var ss, ms :| Leads(ss, ms, adds, polls, s);
    Prefix(ss, ms, s', m, |ms|);
    var ss', ms' := ss + [s'], ms + [m];
    assert ss'[|ms|] == s && ms'[|ms|] == m;
    var more, begun := if m.act == AddSwaps(0) then 1 else 0, if Begins(s, m, 0) then 1 else 0;
    assert Leads(ss', ms', adds + more, polls + begun, s');
  }

  /** A step that neither adds nor swaps. */
  lemma Goes(adds: nat, polls: nat, s: State, c: nat, a: Act, s': State)
    requires Reaches(adds, polls, s) && Step(s, c, a, s') && !a.AddSwaps? && !a.RunSwaps? && !a.Finishes?
    ensures Reaches(adds, polls, s')
  {
    hide Step, Reaches;
    Extends(adds, polls, s, Move(c, a), s');
  }

  const EMPTY := Ring(0, 0, 0, 0, [0, 0], Nobody)
  const FULL := Ring(1, 0, 0, 0, [0, 0], Nobody)
  const TAKEN := Ring(1, 1, 0, 0, [0, 0], Nobody)

  /** A core: its control, its ring, its program counter and its hand. */
  datatype Side = Side(x: Ctl, q: Ring, pc: L.Pc, hand: multiset<Ptr>)

  /** Two cores with rings of two slots, and one task. */
  function Cores(a: Side, b: Side, t: TaskState): State {
    var q := L.State(2, [a.q, b.q], [a.pc, b.pc], [L.NoDrain, L.NoDrain], [a.hand, b.hand], multiset{});
    State(q, [a.x, b.x], [t], [0])
  }

  /** Side `a` is core 0 or core 1. */
  function Of(c: nat, a: Side, b: Side, t: TaskState): State { if c == 0 then Cores(a, b, t) else Cores(b, a, t) }

  /** Core `c` becomes `a'`, by the updates the steps are written in. */
  lemma Becomes(c: nat, a: Side, b: Side, t: TaskState, a': Side, t': TaskState)
    requires c < 2 && |a.q.buf| == |b.q.buf| == |a'.q.buf| == 2
    ensures var s, s' := Of(c, a, b, t), Of(c, a', b, t');
      && Shape(s) && |s.ctl| == 2 && s.q.n == 2 && |s.tasks| == 1
      && s.ctl[c] == a.x && s.q.qs[c] == a.q && s.q.pcs[c] == a.pc && s.q.hands[c] == a.hand && s.tasks[0] == t
      && s' == State(L.State(2, s.q.qs[c := a'.q], s.q.pcs[c := a'.pc], s.q.drains, s.q.hands[c := a'.hand], s.q.lost),
          s.ctl[c := a'.x], s.tasks[0 := t'], s.claims)
      && s.q.qs[c := a.q] == s.q.qs && s.q.hands[c := a.hand] == s.q.hands && s.tasks[0 := t] == s.tasks
      && s.q.pcs[c := a.pc] == s.q.pcs
  {
    if c == 0 { Updates(a, b, a'); } else { UpdatesSecond(a, b, a'); }
    assert [t][0 := t'] == [t'];
  }

  lemma Updates(a: Side, b: Side, a': Side)
    ensures [a.q, b.q][0 := a'.q] == [a'.q, b.q] && [a.pc, b.pc][0 := a'.pc] == [a'.pc, b.pc]
    ensures [a.hand, b.hand][0 := a'.hand] == [a'.hand, b.hand] && [a.x, b.x][0 := a'.x] == [a'.x, b.x]
  {
  }

  lemma UpdatesSecond(a: Side, b: Side, a': Side)
    ensures [b.q, a.q][1 := a'.q] == [b.q, a'.q] && [b.pc, a.pc][1 := a'.pc] == [b.pc, a'.pc]
    ensures [b.hand, a.hand][1 := a'.hand] == [b.hand, a'.hand] && [b.x, a.x][1 := a'.x] == [b.x, a'.x]
  {
  }

  // ----- the stages of a core that adds task 0 and then polls it -----

  const NEW := Side(Setup, EMPTY, L.Idle, multiset{})
  const ADD_CALLED := Side(AddCall(0), EMPTY, L.Idle, multiset{0})
  const PUSH_CALLED := Side(Adding(0), EMPTY, L.LoadedPush(L.Push(0), 0), multiset{})
  const PUSH_LOADED := Side(Adding(0), EMPTY, L.LoadedWord(L.Push(0), 0, 0, 0), multiset{})
  const PUSH_WROTE := Side(Adding(0), EMPTY, L.PushWrote(0, 0), multiset{})
  const PUSH_DONE := Side(Adding(0), FULL, L.Done(L.Pushed), multiset{})
  const ADDED := Side(Setup, FULL, L.Idle, multiset{})
  const LOOPING := Side(Loop, FULL, L.Idle, multiset{})
  const POP_CALLED := Side(Popping, FULL, L.PopWord(0, 0), multiset{})
  const POP_LOADED := Side(Popping, FULL, L.PopLoaded(0, 0, 1), multiset{})
  const POP_TAKEN := Side(Popping, TAKEN, L.PopTaken(0, 0), multiset{})
  const POP_DONE := Side(Popping, TAKEN, L.Done(L.Popped(0)), multiset{})
  const GOT := Side(Got(0), TAKEN, L.Idle, multiset{0})
  const POLLING := Side(Polling(0), TAKEN, L.Idle, multiset{0})
  const PARKED := Side(Parked(0), TAKEN, L.Idle, multiset{0})
  const REQUEUE := Side(Requeue(0), TAKEN, L.Idle, multiset{0})

  lemma Begin()
    ensures Reaches(0, 0, Cores(NEW, NEW, Initialized))
  {
    var s0 := Cores(NEW, NEW, Free).(claims := []);
    assert L.EmptyRing(2) == EMPTY;
    assert IsRun([s0], []) && Leads([s0], [], 0, 0, s0);
    Goes(0, 0, s0, 0, Claim(0), Cores(NEW, NEW, Initialized));
  }

  lemma CallsPush(c: nat, b: Side, adds: nat, polls: nat)
    requires c < 2 && |b.q.buf| == 2 && Reaches(adds, polls, Of(c, ADD_CALLED, b, Ready))
    ensures Reaches(adds, polls, Of(c, PUSH_CALLED, b, Ready))
  {
    hide Reaches, Of;
    Becomes(c, ADD_CALLED, b, Ready, PUSH_CALLED, Ready);
    assert multiset{0} - multiset{0} == multiset{};
    Goes(adds, polls, Of(c, ADD_CALLED, b, Ready), c, CallPush, Of(c, PUSH_CALLED, b, Ready));
  }

  lemma LoadsWord(c: nat, b: Side, adds: nat, polls: nat)
    requires c < 2 && |b.q.buf| == 2 && Reaches(adds, polls, Of(c, PUSH_CALLED, b, Ready))
    ensures Reaches(adds, polls, Of(c, PUSH_LOADED, b, Ready))
  {
    hide Reaches, Of;
    Becomes(c, PUSH_CALLED, b, Ready, PUSH_LOADED, Ready);
    Goes(adds, polls, Of(c, PUSH_CALLED, b, Ready), c, Queue(L.LoadWord), Of(c, PUSH_LOADED, b, Ready));
  }

  lemma WritesSlot(c: nat, b: Side, adds: nat, polls: nat)
    requires c < 2 && |b.q.buf| == 2 && Reaches(adds, polls, Of(c, PUSH_LOADED, b, Ready))
    ensures Reaches(adds, polls, Of(c, PUSH_WROTE, b, Ready))
  {
    hide Reaches, Of;
    Becomes(c, PUSH_LOADED, b, Ready, PUSH_WROTE, Ready);
    assert WriteAt(EMPTY, 0, 0) == EMPTY;
    Goes(adds, polls, Of(c, PUSH_LOADED, b, Ready), c, Queue(L.PushWrites), Of(c, PUSH_WROTE, b, Ready));
  }

  lemma StoresCount(c: nat, b: Side, adds: nat, polls: nat)
    requires c < 2 && |b.q.buf| == 2 && Reaches(adds, polls, Of(c, PUSH_WROTE, b, Ready))
    ensures Reaches(adds, polls, Of(c, PUSH_DONE, b, Ready))
  {
    hide Reaches, Of;
    Becomes(c, PUSH_WROTE, b, Ready, PUSH_DONE, Ready);
    Goes(adds, polls, Of(c, PUSH_WROTE, b, Ready), c, Queue(L.PushStores), Of(c, PUSH_DONE, b, Ready));
  }

  lemma PushReturns(c: nat, b: Side, adds: nat, polls: nat)
    requires c < 2 && |b.q.buf| == 2 && Reaches(adds, polls, Of(c, PUSH_DONE, b, Ready))
    ensures Reaches(adds, polls, Of(c, ADDED, b, Ready))
  {
    hide Reaches, Of;
    Becomes(c, PUSH_DONE, b, Ready, ADDED, Ready);
    Goes(adds, polls, Of(c, PUSH_DONE, b, Ready), c, Returns, Of(c, ADDED, b, Ready));
  }

  lemma EntersRun(c: nat, b: Side, adds: nat, polls: nat)
    requires c < 2 && |b.q.buf| == 2 && Reaches(adds, polls, Of(c, ADDED, b, Ready))
    ensures Reaches(adds, polls, Of(c, LOOPING, b, Ready))
  {
    hide Reaches, Of;
    Becomes(c, ADDED, b, Ready, LOOPING, Ready);
    Goes(adds, polls, Of(c, ADDED, b, Ready), c, EnterRun, Of(c, LOOPING, b, Ready));
  }

  lemma CallsPop(c: nat, b: Side, adds: nat, polls: nat)
    requires c < 2 && |b.q.buf| == 2 && Reaches(adds, polls, Of(c, LOOPING, b, Ready))
    ensures Reaches(adds, polls, Of(c, POP_CALLED, b, Ready))
  {
    hide Reaches, Of;
    Becomes(c, LOOPING, b, Ready, POP_CALLED, Ready);
    Goes(adds, polls, Of(c, LOOPING, b, Ready), c, CallPop, Of(c, POP_CALLED, b, Ready));
  }

  lemma LoadsCount(c: nat, b: Side, adds: nat, polls: nat)
    requires c < 2 && |b.q.buf| == 2 && Reaches(adds, polls, Of(c, POP_CALLED, b, Ready))
    ensures Reaches(adds, polls, Of(c, POP_LOADED, b, Ready))
  {
    hide Reaches, Of;
    Becomes(c, POP_CALLED, b, Ready, POP_LOADED, Ready);
    Goes(adds, polls, Of(c, POP_CALLED, b, Ready), c, Queue(L.PopLoads), Of(c, POP_LOADED, b, Ready));
  }

  lemma SwapsWord(c: nat, b: Side, adds: nat, polls: nat)
    requires c < 2 && |b.q.buf| == 2 && Reaches(adds, polls, Of(c, POP_LOADED, b, Ready))
    ensures Reaches(adds, polls, Of(c, POP_TAKEN, b, Ready))
  {
    hide Reaches, Of;
    Becomes(c, POP_LOADED, b, Ready, POP_TAKEN, Ready);
    Goes(adds, polls, Of(c, POP_LOADED, b, Ready), c, Queue(L.PopSwaps), Of(c, POP_TAKEN, b, Ready));
  }

  lemma ReadsSlot(c: nat, b: Side, adds: nat, polls: nat)
    requires c < 2 && |b.q.buf| == 2 && Reaches(adds, polls, Of(c, POP_TAKEN, b, Ready))
    ensures Reaches(adds, polls, Of(c, POP_DONE, b, Ready))
  {
    hide Reaches, Of;
    Becomes(c, POP_TAKEN, b, Ready, POP_DONE, Ready);
    Goes(adds, polls, Of(c, POP_TAKEN, b, Ready), c, Queue(L.PopReads), Of(c, POP_DONE, b, Ready));
  }

  lemma PopReturns(c: nat, b: Side, adds: nat, polls: nat)
    requires c < 2 && |b.q.buf| == 2 && Reaches(adds, polls, Of(c, POP_DONE, b, Ready))
    ensures Reaches(adds, polls, Of(c, GOT, b, Ready))
  {
    hide Reaches, Of;
    Becomes(c, POP_DONE, b, Ready, GOT, Ready);
    assert multiset{} + multiset{0} == multiset{0};
    Goes(adds, polls, Of(c, POP_DONE, b, Ready), c, Returns, Of(c, GOT, b, Ready));
  }

  lemma IsPending(c: nat, b: Side, adds: nat, polls: nat)
    requires c < 2 && |b.q.buf| == 2 && Reaches(adds, polls, Of(c, POLLING, b, Running))
    ensures Reaches(adds, polls, Of(c, PARKED, b, Running))
  {
    hide Reaches, Of;
    Becomes(c, POLLING, b, Running, PARKED, Running);
    Goes(adds, polls, Of(c, POLLING, b, Running), c, PollPending, Of(c, PARKED, b, Running));
  }

  lemma IsReadyAgain(c: nat, b: Side, adds: nat, polls: nat)
    requires c < 2 && |b.q.buf| == 2 && Reaches(adds, polls, Of(c, PARKED, b, Running))
    ensures Reaches(adds, polls, Of(c, REQUEUE, b, Ready))
  {
    hide Reaches, Of;
    Becomes(c, PARKED, b, Running, REQUEUE, Ready);
    Goes(adds, polls, Of(c, PARKED, b, Running), c, StoresReady, Of(c, REQUEUE, b, Ready));
  }

  lemma AddsOne(c: nat, b: Side, t: TaskState, adds: nat)
    requires c < 2 && |b.q.buf| == 2 && t in {Initialized, Ready} && Reaches(adds, 0, Of(c, NEW, b, t))
    ensures Reaches(adds + 1, 0, Of(c, ADDED, b, Ready))
  {
    hide Reaches, Of;
    var a, a' := NEW, ADD_CALLED;
    Becomes(c, a, b, t, a', Ready);
    assert multiset{} + multiset{0} == multiset{0};
    Extends(adds, 0, Of(c, a, b, t), Move(c, AddSwaps(0)), Of(c, a', b, Ready));
    CallsPush(c, b, adds + 1, 0);
    LoadsWord(c, b, adds + 1, 0);
    WritesSlot(c, b, adds + 1, 0);
    StoresCount(c, b, adds + 1, 0);
    PushReturns(c, b, adds + 1, 0);
  }

  lemma PollsOne(c: nat, b: Side, polls: nat)
    requires c < 2 && |b.q.buf| == 2 && Reaches(2, polls, Of(c, ADDED, b, Ready))
    ensures Reaches(2, polls + 1, Of(c, POLLING, b, Running))
  {
    hide Reaches, Of;
    EntersRun(c, b, 2, polls);
    CallsPop(c, b, 2, polls);
    LoadsCount(c, b, 2, polls);
    SwapsWord(c, b, 2, polls);
    ReadsSlot(c, b, 2, polls);
    PopReturns(c, b, 2, polls);
    var a, a' := GOT, POLLING;
    Becomes(c, a, b, Ready, a', Running);
    Extends(2, polls, Of(c, a, b, Ready), Move(c, RunSwaps), Of(c, a', b, Running));
  }

  /** Both cores add task 0, each to its own queue.  Core 0 polls its entry, which is
      pending and goes back; core 1 then polls the other entry.  Two entries were
      added, two polls have begun, and no entry has ended. */
  lemma BothEntriesArePolled()
    ensures Reaches(2, 2, Cores(REQUEUE,
      POLLING, Running))
  {
    hide Reaches;
    Begin();
    AddsOne(0, NEW, Initialized, 0);
    AddsOne(1, ADDED, Ready, 1);
    PollsOne(0, ADDED, 0);
    IsPending(0, ADDED, 2, 1);
    IsReadyAgain(0, ADDED, 2, 1);
    PollsOne(1, REQUEUE, 1);
  }
}
