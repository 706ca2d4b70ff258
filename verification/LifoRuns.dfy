/** The theorems about whole runs of the static queues. */
module LifoRuns {
  import opened Words
  import opened Ring
  import opened LifoMachine
  import opened LifoInvariant
  import opened LifoSafety
  import opened LifoRefinement
  import opened LifoConservation

  /** A run: any number of cores, interleaved step by step. */
  ghost predicate IsRun(ss: seq<State>, ls: seq<Label>) {
    && |ss| == |ls| + 1 && Init(ss[0])
    && forall i {:trigger ls[i]} :: 0 <= i < |ls| ==> Next(ss[i], ls[i], ss[i + 1])
  }

  lemma {:induction false} RunInv(ss: seq<State>, ls: seq<Label>, i: nat)
    requires IsRun(ss, ls) && i < |ss|
    ensures Inv(ss[i])
  {
    if i == 0 {
      InitInv(ss[0]);
    } else {
      RunInv(ss, ls, i - 1);
      StepKeeps(ss[i - 1], ls[i - 1], ss[i]);
    }
  }

  /** In every reachable state of every ring: released head, booked head, tail
      and room stand in this order. */
  lemma CountsInOrder(ss: seq<State>, ls: seq<Label>, i: nat, c: nat)
    requires IsRun(ss, ls) && i < |ss| && c < |ss[i].qs|
    ensures var q := ss[i].qs[c]; 0 <= q.released <= q.booked <= q.Tail() <= q.released + ss[i].n
  {
    RunInv(ss, ls, i);
    assert CoreOk(ss[i], c);
  }

  // ----- writes -----

  predicate Writes(a: Act) { a.PushWrites? || a.ExtendWrites? || a.CopyWrites? }

  /** The position at which a writing step of core `c` calls `write_at`. */
  function WritePosition(s: State, c: nat, a: Act): int
    requires c < |s.pcs| && WriterReady(s.pcs[c], a)
  {
    var pc := s.pcs[c];
    if a.PushWrites? then pc.push - pc.pop
    else if a.ExtendWrites? then pc.push - pc.pop + pc.k
    else pc.bk.destTail + pc.k
  }

  predicate WriterReady(pc: Pc, a: Act) {
    || (a.PushWrites? && pc.LoadedWord?)
    || (a.ExtendWrites? && pc.Extending?)
    || (a.CopyWrites? && pc.Copying? && pc.bk.ForSteal?)
  }

  lemma WriteInRoom(s: State, l: Label, s': State)
    requires Inv(s) && Next(s, l, s') && Writes(l.act)
    ensures l.core < |s.qs| && WriterReady(s.pcs[l.core], l.act)
    ensures var q := s.qs[l.core]; q.Tail() <= WritePosition(s, l.core, l.act) < q.released + s.n
  {
    hide Inv, PcOk, RingOk, CoreOk, VictimFits;
    var c := l.core;
    WriterIs(s, l, s');
    CoreAt(s, c);
    var q, pc := s.qs[c], s.pcs[c];
    match l.act
    case PushWrites => PushRegisters(q, s.qs[VictimOf(pc, c)], s.n, c, pc);
    case ExtendWrites => ExtendWriteRegisters(q, s.n, c, pc);
    case CopyWrites => CopyWriteRegisters(q, s.qs[VictimOf(pc, c)], s.n, c, pc);
  }

  lemma WriterIs(s: State, l: Label, s': State)
    requires Next(s, l, s') && Writes(l.act)
    ensures l.core < |s.qs| == |s.pcs| && WriterReady(s.pcs[l.core], l.act)
    ensures var q, pc := s.qs[l.core], s.pcs[l.core];
      match l.act
      case PushWrites => pc.job.Push? && q.Tail() < q.released + s.n
      case ExtendWrites => 0 <= pc.k < |pc.items| && Low(pc.push - pc.pop + pc.k) != Low(pc.head + s.n)
      case CopyWrites => |pc.reg| == 1
      case _ => false
  {
  }

  lemma PushRegisters(own: Ring, vic: Ring, n: int, c: nat, pc: Pc)
    requires |own.buf| == |vic.buf| == n > 0 && pc.LoadedWord? && PcOk(own, vic, n, c, pc)
    ensures pc.push - pc.pop == own.Tail()
  {
  }

  /** No write of any run hits a slot that a thief or a drain has booked and not
      released, nor a published entry. */
  lemma NoWriteHitsABookedSlot(ss: seq<State>, ls: seq<Label>, i: nat, j: int)
    requires IsRun(ss, ls) && i < |ls| && Writes(ls[i].act)
    requires Shape(ss[i]) && ls[i].core < |ss[i].qs| && WriterReady(ss[i].pcs[ls[i].core], ls[i].act)
    requires var q := ss[i].qs[ls[i].core]; q.released <= j < q.Tail()
    ensures ss[i].n > 0
    ensures Slot(WritePosition(ss[i], ls[i].core, ls[i].act), ss[i].n) != Slot(j, ss[i].n)
  {
    RunInv(ss, ls, i);
    WriteInRoom(ss[i], ls[i], ss[i + 1]);
    SlotsDiffer(j, WritePosition(ss[i], ls[i].core, ls[i].act), ss[i].n);
  }

  /** `push` keeps the invariant exactly when the tail is short of a ring past
      the released head.  Its own check, against the booked head, is weaker; with
      a window booked and the ring full it overwrites the oldest booked entry. */
  lemma PushKeepsExactlyWhenDisciplined(s: State, c: nat, s': State)
    requires Inv(s) && Step(s, c, PushWrites, s')
    ensures Inv(s') <==> Disciplined(s, c, PushWrites)
    ensures !Disciplined(s, c, PushWrites) ==>
      var q := s.qs[c];
      q.released < q.booked && At(s'.qs[c], q.released) == s.pcs[c].job.item
  {
    assert CoreOk(s, c);
    if Disciplined(s, c, PushWrites) {
      PushWritesKeeps(s, c, s');
    } else {
      var q, pc := s.qs[c], s.pcs[c];
      LenExact(pc.push, pc.pop, pc.booked);
      WriteHits(q, s.n, pc.job.item);
      assert !PcOk(s'.qs[c], s'.qs[c], s.n, c, s'.pcs[c]);
      assert !CoreOk(s', c);
    }
  }

  // ----- one booking at a time -----

  /** Agent `a` is between its booking and the release of ring `x`. */
  predicate HoldsWindow(s: State, a: Booker, x: nat)
    requires Shape(s) && x < |s.qs|
  {
    match a
    case Nobody => false
    case Drainer => s.drains[x].Live?
    case Thief(t) => t < |s.pcs| && Holds(s.pcs[t]) && VictimOf(s.pcs[t], t) == x
  }

  /** The window of ring `x` is open exactly when some agent holds it; no two
      agents hold it; and the holder's bounds are the ring's. */
  lemma OneBookingAtATime(ss: seq<State>, ls: seq<Label>, i: nat, x: nat)
    requires IsRun(ss, ls) && i < |ss| && Shape(ss[i]) && x < |ss[i].qs|
    ensures var s, q := ss[i], ss[i].qs[x];
      && (q.released < q.booked <==> exists a :: HoldsWindow(s, a, x))
      && (forall a, b :: HoldsWindow(s, a, x) && HoldsWindow(s, b, x) ==> a == b)
      && (forall t: nat :: HoldsWindow(s, Thief(t), x) ==>
            s.pcs[t].hi == q.booked && (!s.pcs[t].Releasing? ==> s.pcs[t].lo == q.released))
      && (HoldsWindow(s, Drainer, x) ==> q.released <= s.drains[x].cur && s.drains[x].end == q.booked)
  {
    RunInv(ss, ls, i);
    var s := ss[i];
    assert CoreOk(s, x);
    forall a | HoldsWindow(s, a, x) ensures s.qs[x].booker == a {
      if a.Thief? { assert CoreOk(s, a.core); }
    }
    if s.qs[x].booker != Nobody { assert HoldsWindow(s, s.qs[x].booker, x); }
    forall t: nat | HoldsWindow(s, Thief(t), x) ensures CoreOk(s, t) {
    }
  }

  /** A booking swap succeeds only on a ring nobody else has booked, and books
      no more than is published at that moment. */
  lemma BookingCoversPublishedItems(ss: seq<State>, ls: seq<Label>, i: nat)
    requires IsRun(ss, ls) && i < |ls| && ls[i].act.BookSwaps?
    ensures var s, c := ss[i], ls[i].core;
      && Inv(s) && c < |s.qs| && s.pcs[c].BookPush? && VictimOf(s.pcs[c], c) < |s.qs|
      && BookTaken(s, c, ls[i].act.f,
           BookCount(ls[i].act.f, s.pcs[c].bk, s.pcs[c].push, s.pcs[c].pop, s.pcs[c].booked))
  {
    RunInv(ss, ls, i);
    assert Next(ss[i], ls[i], ss[i + 1]);
    assert CoreOk(ss[i], ls[i].core);
    BookSwapsExact(ss[i], ls[i].core, ls[i].act.f, ss[i + 1]);
  }

  // ----- refinement and conservation over runs -----

  /** Every run of the rings is a run of deques, step for step. */
  lemma RunRefines(ss: seq<State>, ls: seq<Label>, i: nat)
    requires IsRun(ss, ls) && i < |ls|
    ensures Inv(ss[i]) && Inv(ss[i + 1]) && |ss[i + 1].qs| == |ss[i].qs| && ls[i].core < |ss[i].qs|
    ensures DequeStep(ss[i], ls[i], ss[i + 1])
  {
    RunInv(ss, ls, i);
    StepRefines(ss[i], ls[i], ss[i + 1]);
  }

  /** The multiset of all entries is the same in every state of a run. */
  lemma RunConserves(ss: seq<State>, ls: seq<Label>, i: nat)
    requires IsRun(ss, ls) && i < |ss|
    ensures Inv(ss[0]) && Inv(ss[i]) && Total(ss[i]) == Total(ss[0])
  {
    RunInv(ss, ls, 0);
    TotalStays(ss, ls, i, Total(ss[0]));
  }

  lemma {:induction false} TotalStays(ss: seq<State>, ls: seq<Label>, i: nat, total: multiset<Ptr>)
    requires IsRun(ss, ls) && i < |ss| && Inv(ss[0]) && Total(ss[0]) == total
    ensures Inv(ss[i]) && Total(ss[i]) == total
  {
    hide Total, Inv;
    if i > 0 {
      TotalStays(ss, ls, i - 1, total);
      assert Next(ss[i - 1], ls[i - 1], ss[i]);
      hide Next;
      StepConserves(ss[i - 1], ls[i - 1], ss[i]);
    }
  }

  // ----- why the discipline is needed -----

  /** A run without the discipline of the clients. */
  ghost predicate IsFreeRun(ss: seq<State>, ls: seq<Label>) {
    && |ss| == |ls| + 1 && Init(ss[0])
    && forall i {:trigger ls[i]} :: 0 <= i < |ls| ==> FreeStep(ss[i], ls[i], ss[i + 1])
  }

  function TwoCores(q0: Ring, pc0: Pc, pc1: Pc, hand0: multiset<Ptr>): State {
    State(1, [q0, EmptyRing(1)], [pc0, pc1], [NoDrain, NoDrain], [hand0, multiset{}], multiset{})
  }

  const BK := ForSteal(0, true, 0, 0, 2)
  const EMPTY := Ring(0, 0, 0, 0, [0], Nobody)
  const WRITTEN := Ring(0, 0, 0, 0, [7], Nobody)
  const PUSHED := Ring(1, 0, 0, 0, [7], Nobody)
  const BOOKED := Ring(1, 0, 1, 0, [7], Thief(1))
  const OVERWRITTEN := Ring(1, 0, 1, 0, [8], Thief(1))
  const COPY := Copying(BK, 0, 1, 0, [], [7])

  ghost predicate FreeStep(s: State, l: Label, s': State) { Step(s, l.core, l.act, s') && Timely(s, l.core) }

  ghost predicate FreelyReachable(s: State) {
    exists ss, ls :: IsFreeRun(ss, ls) && ss[|ss| - 1] == s
  }

  lemma Extends(s: State, l: Label, s': State)
    requires FreelyReachable(s) && FreeStep(s, l, s')
    ensures FreelyReachable(s')
  {
    var ss, ls :| IsFreeRun(ss, ls) && ss[|ss| - 1] == s;
    hide FreeStep, Init;
    assert IsFreeRun(ss + [s'], ls + [l]);
  }

  lemma Core0Calls7()
    ensures FreelyReachable(TwoCores(EMPTY, LoadedWord(Push(7), 0, 0, 0), Idle, multiset{8}))
  {
    var s0 := TwoCores(EMPTY, Idle, Idle, multiset{7, 8});
    var s1 := TwoCores(EMPTY, LoadedPush(Push(7), 0), Idle, multiset{8});
    assert FreelyReachable(s0) by {
      assert EmptyRing(1) == EMPTY;
      assert IsFreeRun([s0], []);
    }
    assert multiset{7, 8} - multiset{7} == multiset{8};
    Extends(s0, Label(0, Start(DoPush(7))), s1);
    Extends(s1, Label(0, LoadWord), TwoCores(EMPTY, LoadedWord(Push(7), 0, 0, 0), Idle, multiset{8}));
  }

  lemma Core0Stores7()
    requires FreelyReachable(TwoCores(EMPTY, LoadedWord(Push(7), 0, 0, 0), Idle, multiset{8}))
    ensures FreelyReachable(TwoCores(PUSHED, Idle, Idle, multiset{8}))
  {
    var s1 := TwoCores(WRITTEN, PushWrote(7, 0), Idle, multiset{8});
    var s2 := TwoCores(PUSHED, Done(Pushed), Idle, multiset{8});
    Core0Writes7();
    Extends(s1, Label(0, PushStores), s2);
    Extends(s2, Label(0, Return), TwoCores(PUSHED, Idle, Idle, multiset{8}));
  }

  lemma Core0Writes7()
    requires FreelyReachable(TwoCores(EMPTY, LoadedWord(Push(7), 0, 0, 0), Idle, multiset{8}))
    ensures FreelyReachable(TwoCores(WRITTEN, PushWrote(7, 0), Idle, multiset{8}))
  {
    assert WriteAt(EMPTY, 0, 7) == WRITTEN by { assert EMPTY.buf[0 := 7] == [7]; }
    Extends(TwoCores(EMPTY, LoadedWord(Push(7), 0, 0, 0), Idle, multiset{8}), Label(0, PushWrites),
            TwoCores(WRITTEN, PushWrote(7, 0), Idle, multiset{8}));
  }

  lemma Core1Loads()
    requires FreelyReachable(TwoCores(PUSHED, Idle, Idle, multiset{8}))
    ensures FreelyReachable(TwoCores(PUSHED, Idle, ToBook(BK), multiset{8}))
  {
    var s0 := TwoCores(PUSHED, Idle, Idle, multiset{8});
    var s1 := TwoCores(PUSHED, Idle, LoadedPush(Steal(0, true), 0), multiset{8});
    var s2 := TwoCores(PUSHED, Idle, LoadedWord(Steal(0, true), 0, 0, 0), multiset{8});
    Extends(s0, Label(1, Start(DoSteal(0, true))), s1);
    Extends(s1, Label(1, LoadWord), s2);
    Extends(s2, Label(1, LoadHead), TwoCores(PUSHED, Idle, ToBook(BK), multiset{8}));
  }

  lemma Core1Books()
    requires FreelyReachable(TwoCores(PUSHED, Idle, ToBook(BK), multiset{8}))
    ensures FreelyReachable(TwoCores(PUSHED, Idle, BookHead(BK, 0, 0, 0), multiset{8}))
  {
    var s0 := TwoCores(PUSHED, Idle, ToBook(BK), multiset{8});
    var s1 := TwoCores(PUSHED, Idle, BookWord(BK, 0, 0), multiset{8});
    Extends(s0, Label(1, BookLoads), s1);
    Extends(s1, Label(1, BookLoadsHead), TwoCores(PUSHED, Idle, BookHead(BK, 0, 0, 0), multiset{8}));
  }

  lemma Core1Swaps()
    requires FreelyReachable(TwoCores(PUSHED, Idle, BookHead(BK, 0, 0, 0), multiset{8}))
    ensures FreelyReachable(TwoCores(BOOKED, Idle, COPY, multiset{8}))
  {
    Extends(TwoCores(PUSHED, Idle, BookHead(BK, 0, 0, 0), multiset{8}), Label(1, BookLoadsPush),
            TwoCores(PUSHED, Idle, BookPush(BK, 0, 0, 0, 1), multiset{8}));
    assert Items(PUSHED, 0, 1) == [7];
    Extends(TwoCores(PUSHED, Idle, BookPush(BK, 0, 0, 0, 1), multiset{8}), Label(1, BookSwaps(1)),
            TwoCores(BOOKED, Idle, COPY, multiset{8}));
  }

  lemma Core0Calls8()
    requires FreelyReachable(TwoCores(BOOKED, Idle, COPY, multiset{8}))
    ensures FreelyReachable(TwoCores(BOOKED, LoadedWord(Push(8), 1, 0, 1), COPY, multiset{}))
  {
    var s1 := TwoCores(BOOKED, LoadedPush(Push(8), 1), COPY, multiset{});
    assert multiset{8} - multiset{8} == multiset{};
    Extends(TwoCores(BOOKED, Idle, COPY, multiset{8}), Label(0, Start(DoPush(8))), s1);
    Extends(s1, Label(0, LoadWord), TwoCores(BOOKED, LoadedWord(Push(8), 1, 0, 1), COPY, multiset{}));
  }

  lemma Core0Writes8()
    requires FreelyReachable(TwoCores(BOOKED, LoadedWord(Push(8), 1, 0, 1), COPY, multiset{}))
    ensures FreelyReachable(TwoCores(OVERWRITTEN, PushWrote(8, 1), COPY, multiset{}))
  {
    assert WriteAt(BOOKED, 1, 8) == OVERWRITTEN by { assert BOOKED.buf[0 := 8] == [8]; }
    Extends(TwoCores(BOOKED, LoadedWord(Push(8), 1, 0, 1), COPY, multiset{}), Label(0, PushWrites),
            TwoCores(OVERWRITTEN, PushWrote(8, 1), COPY, multiset{}));
  }

  lemma Core1Takes8()
    requires FreelyReachable(TwoCores(OVERWRITTEN, PushWrote(8, 1), COPY, multiset{}))
    ensures FreelyReachable(TwoCores(OVERWRITTEN, PushWrote(8, 1), Publishing(BK, 0, 1, [8], [7]), multiset{}))
  {
    Extends(TwoCores(OVERWRITTEN, PushWrote(8, 1), COPY, multiset{}), Label(1, CopyEnds),
            TwoCores(OVERWRITTEN, PushWrote(8, 1), Publishing(BK, 0, 1, [8], [7]), multiset{}));
  }

  /** A ring of one slot, reached by calls alone: core 0 pushes entry 7, core 1
      books it, core 0 pushes entry 8 before core 1 has read the slot, and
      core 1 walks off with 8 in place of the 7 it booked. */
  lemma UndisciplinedPushOverwrites()
    ensures FreelyReachable(TwoCores(OVERWRITTEN, PushWrote(8, 1), Publishing(BK, 0, 1, [8], [7]), multiset{}))
  {
    Core0Calls7();
    Core0Stores7();
    Core1Loads();
    Core1Books();
    Core1Swaps();
    Core0Calls8();
    Core0Writes8();
    Core1Takes8();
  }
}
