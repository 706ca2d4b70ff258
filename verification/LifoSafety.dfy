/** Every step of a disciplined, timely run keeps the invariant. */
module LifoSafety {
  import opened Words
  import opened Ring
  import opened LifoMachine
  import opened LifoInvariant

  // ----- what the words decide -----

  lemma LenExact(push: int, pop: int, head: int)
    requires 0 <= push - pop - head < WORD
    ensures Len32(push, pop, head) == push - pop - head
  {
    SubExact(push, pop);
    SubExact(push - pop, head);
  }

  lemma TailExact(push: int, pop: int, head: int)
    requires 0 <= push - pop - head < WORD
    ensures Tail32(push, pop) == Low(head) <==> push - pop == head
  {
    SubExact(push, pop);
    LowExact(push - pop, head);
  }

  /** A successful swap found the very counts it had loaded. */
  lemma SwapExact(pop: int, booked: int, pop': int, booked': int)
    requires 0 <= pop' - pop < WORD && 0 <= booked' - booked < WORD
    ensures Pack(Low(pop'), Low(booked')) == Pack(Low(pop), Low(booked)) <==> pop == pop' && booked == booked'
  {
    PackRoundTrip(Low(pop'), Low(booked'), Low(pop), Low(booked));
    LowExact(pop', pop);
    LowExact(booked', booked);
  }

  // ----- steps that change one core's registers only -----

  lemma StartKeeps(s: State, c: nat, op: Op, s': State)
    requires Inv(s) && c < |s.qs| && StartStep(s, c, op, s')
    ensures Inv(s')
  {
    assert CoreOk(s, c);
    LocalKeeps(s, c, s');
  }

  lemma LoadWordKeeps(s: State, c: nat, s': State)
    requires Inv(s) && c < |s.qs| && LoadWordStep(s, c, s')
    ensures Inv(s')
  {
    assert CoreOk(s, c);
    LocalKeeps(s, c, s');
  }

  lemma LoadHeadKeeps(s: State, c: nat, s': State)
    requires Inv(s) && c < |s.qs| && LoadHeadStep(s, c, s')
    ensures Inv(s')
  {
    assert CoreOk(s, c);
    LenExact(s.pcs[c].push, s.pcs[c].pop, s.qs[c].released);
    LocalKeeps(s, c, s');
  }

  lemma PopRegistersKeep(s: State, c: nat, s': State)
    requires Inv(s) && c < |s.qs|
    requires PopLoadsStep(s, c, s') || PopEmptyStep(s, c, s') || PopRetriesStep(s, c, s') || PopReadsStep(s, c, s')
    ensures Inv(s')
  {
    assert CoreOk(s, c);
    LocalKeeps(s, c, s');
  }

  lemma BookLoadsKeep(s: State, c: nat, s': State)
    requires Inv(s) && c < |s.qs| && (BookLoadsStep(s, c, s') || BookLoadsHeadStep(s, c, s'))
    ensures Inv(s')
  {
    assert CoreOk(s, c) && CoreOk(s, VictimOf(s.pcs[c], c));
    LocalKeeps(s, c, s');
  }

  lemma BookRefusesKeep(s: State, c: nat, f: nat, s': State)
    requires Inv(s) && c < |s.qs| && (BookBusyStep(s, c, s') || BookNoneStep(s, c, f, s'))
    ensures Inv(s')
  {
    assert CoreOk(s, c);
    LocalKeeps(s, c, s');
  }

  lemma BookRetriesKeep(s: State, c: nat, f: nat, s': State)
    requires Inv(s) && c < |s.qs| && BookRetriesStep(s, c, f, s')
    ensures Inv(s')
  {
    assert CoreOk(s, c) && CoreOk(s, VictimOf(s.pcs[c], c));
    LocalKeeps(s, c, s');
  }

  lemma BookLoadsPushKeeps(s: State, c: nat, s': State)
    requires Inv(s) && c < |s.qs| && Timely(s, c) && BookLoadsPushStep(s, c, s')
    ensures Inv(s')
  {
    assert CoreOk(s, c) && CoreOk(s, VictimOf(s.pcs[c], c));
    LowExact(s.pcs[c].seen, s.pcs[c].booked);
    LocalKeeps(s, c, s');
  }

  lemma CopyReadsKeeps(s: State, c: nat, s': State)
    requires Inv(s) && c < |s.qs| && CopyReadsStep(s, c, s')
    ensures Inv(s')
  {
    assert CoreOk(s, c);
    LocalKeeps(s, c, s');
  }

  lemma CopyEndsKeeps(s: State, c: nat, s': State)
    requires Inv(s) && c < |s.qs| && CopyEndsStep(s, c, s')
    ensures Inv(s')
  {
    assert CoreOk(s, c);
    LocalKeeps(s, c, s');
  }

  lemma ReturnsKeep(s: State, c: nat, s': State)
    requires Inv(s) && c < |s.qs| && (ReturnStep(s, c, s') || PushRejectsStep(s, c, s'))
    ensures Inv(s')
  {
    assert CoreOk(s, c);
    LocalKeeps(s, c, s');
  }

  // ----- steps that change a ring -----

  /** A core's write, publish or pop on its own ring. */
  lemma OwnRingKeeps(s: State, c: nat, s': State)
    requires Inv(s) && Shape(s') && c < |s.qs| == |s'.qs|
    requires s'.n == s.n && s'.qs == s.qs[c := s'.qs[c]] && s'.pcs == s.pcs[c := s'.pcs[c]] && s'.drains == s.drains
    requires RingOk(s'.qs[c], s.n) && s'.qs[c].booker == s.qs[c].booker
    requires forall me :: Rely(s.qs[c], s'.qs[c], false, me)
    requires VictimFits(s'.pcs[c], c, |s.qs|)
    requires PcOk(s'.qs[c], s'.qs[VictimOf(s'.pcs[c], c)], s.n, c, s'.pcs[c])
    requires Holds(s.pcs[c]) ==> Holds(s'.pcs[c]) && VictimOf(s'.pcs[c], c) == VictimOf(s.pcs[c], c)
    ensures Inv(s')
  {
    assert CoreOk(s, c);
    DrainStable(s.qs[c], s'.qs[c], s.drains[c]);
    RingKeeps(s, c, c, s');
  }

  lemma PushWritesKeeps(s: State, c: nat, s': State)
    requires Inv(s) && c < |s.qs| && PushWritesStep(s, c, s') && Disciplined(s, c, PushWrites)
    ensures Inv(s')
  {
    assert CoreOk(s, c);
    var q, pc := s.qs[c], s.pcs[c];
    WriteKeeps(q, s.n, q.Tail(), pc.job.item);
    WriteFrame(q, q.released, q.Tail(), pc.job.item);
    OwnRingKeeps(s, c, s');
  }

  lemma PushStoresKeeps(s: State, c: nat, s': State)
    requires Inv(s) && c < |s.qs| && PushStoresStep(s, c, s')
    ensures Inv(s')
  {
    assert CoreOk(s, c);
    PublishKeeps(s.qs[c], s.n, 1);
    OwnRingKeeps(s, c, s');
  }

  lemma ExtendWriteRegisters(own: Ring, n: int, c: nat, pc: Pc)
    requires RingOk(own, n) && IsRingSize(n)
    requires pc.Extending? && PcOk(own, own, n, c, pc) && pc.k < |pc.items|
    requires Low(pc.push - pc.pop + pc.k) != Low(pc.head + n)
    ensures own.Tail() <= own.Tail() + pc.k < own.released + n && pc.push - pc.pop == own.Tail()
    ensures PcOk(WriteAt(own, own.Tail() + pc.k, pc.items[pc.k]), WriteAt(own, own.Tail() + pc.k, pc.items[pc.k]), n, c,
                 Extending(pc.items, pc.k + 1, pc.push, pc.pop, pc.head))
  {
    LowExact(own.Tail() + pc.k, pc.head + n);
    WriteFrame(own, own.released, own.Tail() + pc.k, pc.items[pc.k]);
  }

  lemma ExtendWritesKeeps(s: State, c: nat, s': State)
    requires Inv(s) && c < |s.qs| && ExtendWritesStep(s, c, s')
    ensures Inv(s')
  {
    hide Inv, PcOk, RingOk, Rely, CoreOk;
    CoreAt(s, c);
    var q, pc := s.qs[c], s.pcs[c];
    ExtendWriteRegisters(q, s.n, c, pc);
    WriteKeeps(q, s.n, q.Tail() + pc.k, pc.items[pc.k]);
    OwnRingKeeps(s, c, s');
  }

  lemma ExtendStoresKeeps(s: State, c: nat, s': State)
    requires Inv(s) && c < |s.qs| && ExtendStoresStep(s, c, s')
    ensures Inv(s')
  {
    assert CoreOk(s, c);
    PublishKeeps(s.qs[c], s.n, s.pcs[c].k);
    OwnRingKeeps(s, c, s');
  }

  lemma PopSwapsExact(s: State, c: nat, s': State)
    requires Inv(s) && c < |s.qs| && PopSwapsStep(s, c, s')
    ensures s.pcs[c].push == s.qs[c].push && s.pcs[c].pop == s.qs[c].pop
    ensures s.pcs[c].booked == s.qs[c].booked < s.qs[c].Tail()
  {
    assert CoreOk(s, c);
    var q, pc := s.qs[c], s.pcs[c];
    SwapExact(pc.pop, pc.booked, q.pop, q.booked);
    TailExact(pc.push, pc.pop, pc.booked);
  }

  lemma PopSwapsKeeps(s: State, c: nat, s': State)
    requires Inv(s) && c < |s.qs| && PopSwapsStep(s, c, s')
    ensures Inv(s')
  {
    assert CoreOk(s, c);
    PopSwapsExact(s, c, s');
    PopKeeps(s.qs[c], s.n);
    OwnRingKeeps(s, c, s');
  }

  predicate BookTaken(s: State, c: nat, f: nat, count: int)
    requires Shape(s) && c < |s.qs| && s.pcs[c].BookPush? && VictimOf(s.pcs[c], c) < |s.qs|
  {
    var pc := s.pcs[c];
    var v := s.qs[VictimOf(pc, c)];
    && count == BookCount(f, pc.bk, pc.push, pc.pop, pc.booked)
    && v.booker == Nobody && v.pop == pc.pop && v.booked == v.released == pc.booked
    && 0 < count <= v.Tail() - v.booked
    && count <= MaxCount(pc.bk) && count <= f
  }

  /** A successful booking swap: nobody else holds the window, and it takes
      published entries only, although the head was read once before the retry
      loop and the push count between the load and the swap. */
  lemma BookSwapsExact(s: State, c: nat, f: nat, s': State)
    requires Inv(s) && c < |s.qs| && Timely(s, c) && BookSwapsStep(s, c, f, s')
    ensures BookTaken(s, c, f, BookCount(f, s.pcs[c].bk, s.pcs[c].push, s.pcs[c].pop, s.pcs[c].booked))
  {
    assert CoreOk(s, c) && CoreOk(s, VictimOf(s.pcs[c], c));
    var pc := s.pcs[c];
    var v := s.qs[VictimOf(pc, c)];
    SwapExact(pc.pop, pc.booked, v.pop, v.booked);
    LenExact(pc.push, pc.pop, pc.booked);
  }

  lemma BookSwapRegisters(own: Ring, v: Ring, n: int, c: nat, pc: Pc, count: int, v': Ring)
    requires pc.BookPush? && pc.bk.ForSteal? && RingOk(own, n) && RingOk(v, n) && PcOk(own, v, n, c, pc)
    requires v.released == v.booked && 0 < count <= v.Tail() - v.booked && count <= pc.bk.max
    requires v' == Book(v, count, Thief(c))
    ensures PcOk(own, v', n, c, Copying(pc.bk, v.booked, v.booked + count, 0, [], Items(v, v.booked, v.booked + count)))
  {
  }

  lemma BookSwapsKeeps(s: State, c: nat, f: nat, s': State)
    requires Inv(s) && c < |s.qs| && Timely(s, c) && BookSwapsStep(s, c, f, s')
    ensures Inv(s')
  {
    var pc := s.pcs[c];
    var x := VictimOf(pc, c);
    assert CoreOk(s, c) && CoreOk(s, x);
    BookSwapsExact(s, c, f, s');
    var count := BookCount(f, pc.bk, pc.push, pc.pop, pc.booked);
    if pc.bk.ForDrain? {
      DrainSwapsKeeps(s, c, count, s');
    } else {
      StealSwapsKeeps(s, c, x, count, s');
    }
  }

  lemma StealSwapsKeeps(s: State, c: nat, x: nat, count: int, s': State)
    requires Inv(s) && Shape(s') && c < |s.qs| && x < |s.qs| && s.pcs[c].BookPush? && s.pcs[c].bk.ForSteal?
    requires x == VictimOf(s.pcs[c], c) && s.qs[x].released == s.qs[x].booked
    requires 0 < count <= s.qs[x].Tail() - s.qs[x].booked && count <= s.pcs[c].bk.max
    requires var v, bk := s.qs[x], s.pcs[c].bk;
      s' == SetPc(SetQ(s, x, Book(v, count, Thief(c))), c,
                  Copying(bk, v.booked, v.booked + count, 0, [], Items(v, v.booked, v.booked + count)))
    ensures Inv(s')
  {
    assert CoreOk(s, c) && CoreOk(s, x);
    BookKeeps(s.qs[x], s.n, count, Thief(c));
    BookSwapRegisters(s.qs[c], s.qs[x], s.n, c, s.pcs[c], count, s'.qs[x]);
    RingKeeps(s, c, x, s');
  }

  lemma DrainTakes(q: Ring, n: int, count: int)
    requires RingOk(q, n) && q.released == q.booked && 0 < count <= q.Tail() - q.booked
    ensures DrainOk(Book(q, count, Drainer), Live(q.booked, q.booked + count, Items(q, q.booked, q.booked + count)))
  {
  }

  lemma DrainSwapsKeeps(s: State, c: nat, count: int, s': State)
    requires Inv(s) && Shape(s') && c < |s.qs| && s.pcs[c].BookPush? && s.qs[c].released == s.qs[c].booked
    requires 0 < count <= s.qs[c].Tail() - s.qs[c].booked
    requires var q := s.qs[c];
      s' == SetPc(SetQ(s, c, Book(q, count, Drainer)), c, Done(Draining))
              .(drains := s.drains[c := Live(q.booked, q.booked + count, Items(q, q.booked, q.booked + count))])
    ensures Inv(s')
  {
    assert CoreOk(s, c);
    BookKeeps(s.qs[c], s.n, count, Drainer);
    DrainTakes(s.qs[c], s.n, count);
    RingKeeps(s, c, c, s');
  }

  lemma CopyWriteRegisters(own: Ring, vic: Ring, n: int, c: nat, pc: Pc)
    requires RingOk(own, n) && |vic.buf| == n
    requires pc.Copying? && PcOk(own, vic, n, c, pc) && |pc.reg| == 1
    ensures own.Tail() <= own.Tail() + pc.k < own.released + n && pc.bk.destTail == own.Tail()
    ensures PcOk(WriteAt(own, own.Tail() + pc.k, pc.reg[0]), vic, n, c,
                 Copying(pc.bk, pc.lo, pc.hi, pc.k + 1, [], pc.items))
  {
    WriteFrame(own, own.released, own.Tail() + pc.k, pc.reg[0]);
  }

  lemma CopyWritesKeeps(s: State, c: nat, s': State)
    requires Inv(s) && c < |s.qs| && CopyWritesStep(s, c, s')
    ensures Inv(s')
  {
    hide Inv, PcOk, RingOk, Rely, CoreOk;
    CoreAt(s, c);
    var q, pc := s.qs[c], s.pcs[c];
    CopyWriteRegisters(q, s.qs[VictimOf(pc, c)], s.n, c, pc);
    WriteKeeps(q, s.n, q.Tail() + pc.k, pc.reg[0]);
    OwnRingKeeps(s, c, s');
  }

  lemma PublishRegisters(own: Ring, vic: Ring, n: int, c: nat, pc: Pc, r: Result)
    requires RingOk(own, n) && |vic.buf| == n
    requires pc.Publishing? && PcOk(own, vic, n, c, pc)
    ensures var k := Transfer(pc.bk, pc.hi - pc.lo);
      && 0 <= k && own.Tail() + k <= own.released + n && pc.bk.destPush + k == own.push + k
      && PcOk(Publish(own, k), vic, n, c, Releasing(pc.bk, pc.hi, r))
  {
  }

  lemma PublishesKeeps(s: State, c: nat, s': State)
    requires Inv(s) && c < |s.qs| && PublishesStep(s, c, s')
    ensures Inv(s')
  {
    assert CoreOk(s, c);
    PublishRegisters(s.qs[c], s.qs[VictimOf(s.pcs[c], c)], s.n, c, s.pcs[c], s'.pcs[c].result);
    PublishKeeps(s.qs[c], s.n, Transfer(s.pcs[c].bk, s.pcs[c].hi - s.pcs[c].lo));
    OwnRingKeeps(s, c, s');
  }

  lemma ReleasesKeeps(s: State, c: nat, s': State)
    requires Inv(s) && c < |s.qs| && ReleasesStep(s, c, s')
    ensures Inv(s')
  {
    var x := VictimOf(s.pcs[c], c);
    assert CoreOk(s, c) && CoreOk(s, x);
    ReleaseKeeps(s.qs[x], s.n);
    RingKeeps(s, c, x, s');
  }

  lemma DrainReadsKeeps(s: State, c: nat, s': State)
    requires Inv(s) && c < |s.qs| && DrainReadsStep(s, c, s')
    ensures Inv(s')
  {
    forall x | 0 <= x < |s.qs| ensures CoreOk(s', x) {
      assert CoreOk(s, x);
    }
  }

  lemma DrainReleasesKeeps(s: State, c: nat, s': State)
    requires Inv(s) && c < |s.qs| && DrainReleasesStep(s, c, s')
    ensures Inv(s')
  {
    assert CoreOk(s, c) && CoreOk(s, VictimOf(s.pcs[c], c));
    ReleaseKeeps(s.qs[c], s.n);
    if VictimOf(s.pcs[c], c) == c {
      PcStable(s.qs[c], s.qs[c], s'.qs[c], s'.qs[c], s.n, c, s.pcs[c]);
    } else {
      PcStable(s.qs[c], s.qs[VictimOf(s.pcs[c], c)], s'.qs[c], s.qs[VictimOf(s.pcs[c], c)], s.n, c, s.pcs[c]);
    }
    RingKeeps(s, c, c, s');
  }

  // ----- the theorem -----

  /** One disciplined, timely step of any core keeps the invariant. */
  lemma StepKeeps(s: State, l: Label, s': State)
    requires Inv(s) && Next(s, l, s')
    ensures Inv(s')
  {
    var c := l.core;
    match l.act
    case Start(op) => StartKeeps(s, c, op, s');
    case LoadWord => LoadWordKeeps(s, c, s');
    case LoadHead => LoadHeadKeeps(s, c, s');
    case PushRejects => ReturnsKeep(s, c, s');
    case PushWrites => PushWritesKeeps(s, c, s');
    case PushStores => PushStoresKeeps(s, c, s');
    case ExtendWrites => ExtendWritesKeeps(s, c, s');
    case ExtendStores => ExtendStoresKeeps(s, c, s');
    case PopLoads => PopRegistersKeep(s, c, s');
    case PopEmpty => PopRegistersKeep(s, c, s');
    case PopSwaps => PopSwapsKeeps(s, c, s');
    case PopRetries => PopRegistersKeep(s, c, s');
    case PopReads => PopRegistersKeep(s, c, s');
    case BookLoads => BookLoadsKeep(s, c, s');
    case BookLoadsHead => BookLoadsKeep(s, c, s');
    case BookBusy => BookRefusesKeep(s, c, 0, s');
    case BookLoadsPush => BookLoadsPushKeeps(s, c, s');
    case BookNone(f) => BookRefusesKeep(s, c, f, s');
    case BookSwaps(f) => BookSwapsKeeps(s, c, f, s');
    case BookRetries(f) => BookRetriesKeep(s, c, f, s');
    case CopyReads => CopyReadsKeeps(s, c, s');
    case CopyWrites => CopyWritesKeeps(s, c, s');
    case CopyEnds => CopyEndsKeeps(s, c, s');
    case Publishes => PublishesKeeps(s, c, s');
    case Releases => ReleasesKeeps(s, c, s');
    case DrainReads => DrainReadsKeeps(s, c, s');
    case DrainReleases => DrainReleasesKeeps(s, c, s');
    case Return => ReturnsKeep(s, c, s');
  }
}
