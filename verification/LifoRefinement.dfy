/** Every queue is a deque: the pop swap, the booking swap and the push-count
    store are the moments at which it changes, and it changes there as a deque
    does.  No entry is created, copied or dropped by any step. */
module LifoRefinement {
  import opened Words
  import opened Ring
  import opened LifoMachine
  import opened LifoInvariant
  import opened LifoSafety

  ghost function Deque(s: State, c: nat): seq<Ptr>
    requires Inv(s) && c < |s.qs|
  {
    assert CoreOk(s, c);
    Contents(s.qs[c])
  }

  ghost predicate SameDeques(s: State, s': State)
    requires Inv(s) && Inv(s') && |s'.qs| == |s.qs|
  {
    forall x :: 0 <= x < |s.qs| ==> Deque(s', x) == Deque(s, x)
  }

  /** Only the deque of ring `x` changes, and it becomes `d`. */
  ghost predicate OneDeque(s: State, s': State, x: nat, d: seq<Ptr>)
    requires Inv(s) && Inv(s') && |s'.qs| == |s.qs| && x < |s.qs|
  {
    && Deque(s', x) == d
    && forall y :: 0 <= y < |s.qs| && y != x ==> Deque(s', y) == Deque(s, y)
  }

  /** The effect and the answer of each step, in terms of the deques alone. */
  ghost predicate DequeStep(s: State, l: Label, s': State)
    requires Inv(s) && Inv(s') && |s'.qs| == |s.qs| && l.core < |s.qs|
  {
    var c := l.core;
    var pc, pc' := s.pcs[c], s'.pcs[c];
    match l.act
    case PushStores => pc.PushWrote? && OneDeque(s, s', c, Deque(s, c) + [pc.item])
    case ExtendStores =>
      && pc.Extending? && 0 <= pc.k <= |pc.items|
      && OneDeque(s, s', c, Deque(s, c) + pc.items[..pc.k]) && pc' == Done(Extended(pc.items[pc.k..]))
      && (pc.k < |pc.items| ==> s.qs[c].Tail() + pc.k == pc.head + s.n)
    case PopEmpty => Deque(s, c) == [] && SameDeques(s, s')
    case PopSwaps =>
      && pc'.PopTaken? && Deque(s, c) == Deque(s', c) + [pc'.item]
      && OneDeque(s, s', c, Deque(s', c))
    case PopReads => pc.PopTaken? && pc' == Done(Popped(pc.item)) && SameDeques(s, s')
    case BookSwaps(f) =>
      var x := VictimOf(pc, c);
      && pc.BookPush? && x < |s.qs|
      && var count := BookCount(f, pc.bk, pc.push, pc.pop, pc.booked);
         && 0 < count <= |Deque(s, x)| && count <= f && count <= MaxCount(pc.bk)
         && OneDeque(s, s', x, Deque(s, x)[count..])
         && (pc.bk.ForSteal? ==> pc'.Copying? && pc'.items == Deque(s, x)[..count])
         && (pc.bk.ForDrain? ==> s'.drains[c].Live? && s'.drains[c].items == Deque(s, x)[..count])
    case Publishes =>
      && pc.Publishing? && pc.bk.ForSteal? && 0 < |pc.items|
      && var t := Transfer(pc.bk, |pc.items|);
         && OneDeque(s, s', c, Deque(s, c) + pc.items[..t])
         && pc' == Releasing(pc.bk, pc.hi, if pc.bk.andPop then StolePopped(pc.items[t], t) else Stole(t))
    case DrainReads =>
      && SameDeques(s, s')
      && s.drains[c].Live? && 0 < |s.drains[c].items|
      && s'.hands[c] == s.hands[c] + multiset{s.drains[c].items[0]}
    case _ => SameDeques(s, s')
  }

  /** Rings that keep their slots' entries between the booked head and the tail keep the deque. */
  lemma SameRings(s: State, s': State)
    requires Inv(s) && Inv(s') && s'.qs == s.qs
    ensures SameDeques(s, s')
  {
  }

  lemma OneRing(s: State, s': State, x: nat)
    requires Inv(s) && Inv(s') && x < |s.qs| == |s'.qs| && s'.qs == s.qs[x := s'.qs[x]]
    ensures OneDeque(s, s', x, Deque(s', x))
    ensures Deque(s', x) == Deque(s, x) ==> SameDeques(s, s')
  {
  }

  lemma PushStoresRefines(s: State, c: nat, s': State)
    requires Inv(s) && Inv(s') && c < |s.qs| == |s'.qs| && PushStoresStep(s, c, s')
    ensures DequeStep(s, Label(c, PushStores), s')
  {
    assert CoreOk(s, c);
    PublishKeeps(s.qs[c], s.n, 1);
    OneRing(s, s', c);
  }

  lemma ExtendStoresRefines(s: State, c: nat, s': State)
    requires Inv(s) && Inv(s') && c < |s.qs| == |s'.qs| && ExtendStoresStep(s, c, s')
    ensures DequeStep(s, Label(c, ExtendStores), s')
  {
    assert CoreOk(s, c);
    var q, pc := s.qs[c], s.pcs[c];
    PublishKeeps(q, s.n, pc.k);
    assert Items(q, q.Tail(), q.Tail() + pc.k) == pc.items[..pc.k];
    LowExact(q.Tail() + pc.k, pc.head + s.n);
    OneRing(s, s', c);
  }

  lemma PopRefines(s: State, c: nat, s': State)
    requires Inv(s) && Inv(s') && c < |s.qs| == |s'.qs|
    ensures PopEmptyStep(s, c, s') ==> DequeStep(s, Label(c, PopEmpty), s')
    ensures PopReadsStep(s, c, s') ==> DequeStep(s, Label(c, PopReads), s')
  {
    assert CoreOk(s, c);
    if PopEmptyStep(s, c, s') {
      TailExact(s.pcs[c].push, s.pcs[c].pop, s.pcs[c].booked);
      SameRings(s, s');
    }
  }

  lemma PopSwapsRefines(s: State, c: nat, s': State)
    requires Inv(s) && Inv(s') && c < |s.qs| == |s'.qs| && PopSwapsStep(s, c, s')
    ensures DequeStep(s, Label(c, PopSwaps), s')
  {
    assert CoreOk(s, c);
    PopSwapsExact(s, c, s');
    PopKeeps(s.qs[c], s.n);
    OneRing(s, s', c);
  }

  lemma BookSplits(q: Ring, n: int, k: int, who: Booker)
    requires RingOk(q, n) && q.released == q.booked && 0 < k <= q.Tail() - q.booked && who != Nobody
    ensures RingOk(Book(q, k, who), n)
    ensures k <= |Contents(q)|
    ensures Contents(Book(q, k, who)) == Contents(q)[k..]
    ensures Items(q, q.booked, q.booked + k) == Contents(q)[..k]
  {
    BookKeeps(q, n, k, who);
  }

  lemma BookSwapsResult(s: State, c: nat, f: nat, count: int, s': State)
    requires Shape(s) && c < |s.qs| && BookSwapsStep(s, c, f, s')
    requires s.pcs[c].BookPush? && VictimOf(s.pcs[c], c) < |s.qs|
    requires BookTaken(s, c, f, count)
    ensures var pc, x := s.pcs[c], VictimOf(s.pcs[c], c);
      var v, who := s.qs[x], if pc.bk.ForDrain? then Drainer else Thief(c);
      && s'.qs == s.qs[x := Book(v, count, who)] && |s'.pcs| == |s.pcs| && |s'.drains| == |s.drains|
      && (pc.bk.ForSteal? ==> s'.pcs[c].Copying? && s'.pcs[c].items == Items(v, v.booked, v.booked + count))
      && (pc.bk.ForDrain? ==> s'.drains[c].Live? && s'.drains[c].items == Items(v, v.booked, v.booked + count))
  {
  }

  lemma BookSwapsRefines(s: State, c: nat, f: nat, s': State)
    requires Inv(s) && Inv(s') && c < |s.qs| == |s'.qs| && Timely(s, c) && BookSwapsStep(s, c, f, s')
    ensures DequeStep(s, Label(c, BookSwaps(f)), s')
  {
    var pc := s.pcs[c];
    var x := VictimOf(pc, c);
    BookSwapsExact(s, c, f, s');
    var count := BookCount(f, pc.bk, pc.push, pc.pop, pc.booked);
    BookSwapsResult(s, c, f, count, s');
    hide BookSwapsStep, PcOk, Inv, CoreOk, RingOk, DrainOk, BookerOk, VictimFits, Contents, Items, BookCount, Book;
    CoreAt(s, x);
    BookSplits(s.qs[x], s.n, count, if pc.bk.ForDrain? then Drainer else Thief(c));
    OneRing(s, s', x);
  }

  lemma PublishedItems(own: Ring, vic: Ring, n: int, c: nat, pc: Pc)
    requires RingOk(own, n) && |vic.buf| == n && pc.Publishing? && PcOk(own, vic, n, c, pc)
    ensures pc.bk.ForSteal? && 0 < |pc.items| == pc.hi - pc.lo && pc.bk.destPush == own.push
    ensures var t := Transfer(pc.bk, |pc.items|);
      && 0 <= t <= |pc.items| && own.Tail() + t <= own.released + n
      && Items(own, own.Tail(), own.Tail() + t) == pc.items[..t]
      && pc.last == (if pc.bk.andPop then [pc.items[t]] else [])
  {
  }

  lemma PublishesRefines(s: State, c: nat, s': State)
    requires Inv(s) && Inv(s') && c < |s.qs| == |s'.qs| && PublishesStep(s, c, s')
    ensures DequeStep(s, Label(c, Publishes), s')
  {
    hide PcOk, Inv, CoreOk, RingOk, DrainOk, BookerOk, VictimFits, Items;
    CoreAt(s, c);
    var q, pc := s.qs[c], s.pcs[c];
    PublishedItems(q, s.qs[VictimOf(pc, c)], s.n, c, pc);
    PublishKeeps(q, s.n, Transfer(pc.bk, |pc.items|));
    OneRing(s, s', c);
  }

  /** Writes beyond the tail are not seen by the deques. */
  lemma WriteRefines(s: State, c: nat, i: int, x: Ptr, s': State)
    requires Inv(s) && Inv(s') && c < |s.qs| == |s'.qs|
    requires s.qs[c].Tail() <= i < s.qs[c].released + s.n && s'.qs == s.qs[c := WriteAt(s.qs[c], i, x)]
    ensures SameDeques(s, s')
  {
    assert CoreOk(s, c);
    WriteKeeps(s.qs[c], s.n, i, x);
    OneRing(s, s', c);
  }

  lemma PushWritesRefines(s: State, c: nat, s': State)
    requires Inv(s) && Inv(s') && c < |s.qs| && PushWritesStep(s, c, s') && Disciplined(s, c, PushWrites)
    ensures SameDeques(s, s')
  {
    assert CoreOk(s, c);
    WriteRefines(s, c, s.qs[c].Tail(), s.pcs[c].job.item, s');
  }

  lemma ExtendWritesRefines(s: State, c: nat, s': State)
    requires Inv(s) && Inv(s') && c < |s.qs| && ExtendWritesStep(s, c, s')
    ensures SameDeques(s, s')
  {
    assert CoreOk(s, c);
    ExtendWriteRegisters(s.qs[c], s.n, c, s.pcs[c]);
    WriteRefines(s, c, s.qs[c].Tail() + s.pcs[c].k, s.pcs[c].items[s.pcs[c].k], s');
  }

  lemma CopyWritesRefines(s: State, c: nat, s': State)
    requires Inv(s) && Inv(s') && c < |s.qs| && CopyWritesStep(s, c, s')
    ensures SameDeques(s, s')
  {
    assert CoreOk(s, c);
    WriteRefines(s, c, s.qs[c].Tail() + s.pcs[c].k, s.pcs[c].reg[0], s');
  }

  /** Nor is the release of a window. */
  lemma ReleasesRefine(s: State, c: nat, s': State)
    requires Inv(s) && Inv(s') && c < |s.qs| == |s'.qs|
    requires ReleasesStep(s, c, s') || DrainReleasesStep(s, c, s')
    ensures SameDeques(s, s')
  {
    assert CoreOk(s, c);
    var x := if ReleasesStep(s, c, s') then VictimOf(s.pcs[c], c) else c;
    assert CoreOk(s, x);
    ReleaseKeeps(s.qs[x], s.n);
    OneRing(s, s', x);
  }

  /** Steps that move registers only. */
  predicate RegistersOnly(a: Act) {
    || a.Start? || a.LoadWord? || a.LoadHead? || a.PushRejects? || a.PopLoads? || a.PopRetries?
    || a.BookLoads? || a.BookLoadsHead? || a.BookBusy? || a.BookLoadsPush? || a.BookNone? || a.BookRetries?
    || a.CopyReads? || a.CopyEnds? || a.Return?
  }

  lemma RegistersOnlyRings(s: State, c: nat, a: Act, s': State)
    requires Step(s, c, a, s') && (RegistersOnly(a) || a.DrainReads?)
    ensures s'.qs == s.qs
  {
  }

  lemma DrainReadsRefines(s: State, c: nat, s': State)
    requires Inv(s) && Inv(s') && c < |s.qs| == |s'.qs| && DrainReadsStep(s, c, s')
    ensures DequeStep(s, Label(c, DrainReads), s')
  {
    assert CoreOk(s, c);
    SameRings(s, s');
  }

  /** Refinement: every step of a disciplined, timely run is a step of the deques. */
  lemma StepRefines(s: State, l: Label, s': State)
    requires Inv(s) && Next(s, l, s')
    ensures Inv(s') && |s'.qs| == |s.qs|
    ensures DequeStep(s, l, s')
  {
    StepKeeps(s, l, s');
    SameCores(s, l, s');
    var c := l.core;
    if RegistersOnly(l.act) {
      RegistersOnlyRings(s, c, l.act, s');
      SameRings(s, s');
    } else if l.act.PushWrites? {
      PushWritesRefines(s, c, s');
    } else if l.act.ExtendWrites? {
      ExtendWritesRefines(s, c, s');
    } else if l.act.CopyWrites? {
      CopyWritesRefines(s, c, s');
    } else {
      OtherStepRefines(s, l, s');
    }
  }

  lemma SameCores(s: State, l: Label, s': State)
    requires Next(s, l, s')
    ensures |s'.qs| == |s.qs|
  {
  }

  lemma OtherStepRefines(s: State, l: Label, s': State)
    requires Inv(s) && Inv(s') && Next(s, l, s') && |s'.qs| == |s.qs|
    requires !RegistersOnly(l.act) && !l.act.PushWrites? && !l.act.ExtendWrites? && !l.act.CopyWrites?
    ensures DequeStep(s, l, s')
  {
    var c := l.core;
    match l.act
    case PushStores => PushStoresRefines(s, c, s');
    case ExtendStores => ExtendStoresRefines(s, c, s');
    case PopEmpty => PopRefines(s, c, s');
    case PopSwaps => PopSwapsRefines(s, c, s');
    case PopReads => PopRefines(s, c, s');
    case BookSwaps(f) => BookSwapsRefines(s, c, f, s');
    case Publishes => PublishesRefines(s, c, s');
    case Releases => ReleasesRefine(s, c, s');
    case DrainReleases => ReleasesRefine(s, c, s');
    case DrainReads => DrainReadsRefines(s, c, s');
  }
}
