/** What every reachable state of the queues keeps: the order of the four
    counts, one booking at a time, and registers and half-copied entries that
    agree with the rings whatever the other cores do in between. */
module LifoInvariant {
  import opened Words
  import opened Ring
  import opened LifoMachine

  /** The core is between its booking swap and the store that releases it. */
  predicate Holds(pc: Pc) { pc.Copying? || pc.Publishing? || pc.Releasing? }

  /** A steal that has not been refused names another ring than the core's own. */
  predicate VictimFits(pc: Pc, c: nat, cores: nat) {
    && VictimOf(pc, c) < cores
    && ((pc.LoadedPush? || pc.LoadedWord?) && pc.job.Steal? ==> VictimOf(pc, c) != c)
    && ((pc.ToBook? || pc.BookWord? || pc.BookHead? || pc.BookPush? || Holds(pc)) && pc.bk.ForSteal? ==>
          VictimOf(pc, c) != c)
    && (Holds(pc) ==> pc.bk.ForSteal?)
  }

  /** Registers of the ring's only pusher and popper: what it loaded still stands. */
  ghost predicate OwnRegs(own: Ring, n: int, pop: int, booked: int) {
    pop == own.pop && booked <= own.booked && own.Tail() <= booked + n
  }

  ghost predicate DestOk(own: Ring, n: int, bk: Booking) {
    bk.ForSteal? ==>
      && bk.destPush == own.push && bk.destTail == own.Tail()
      && 0 <= Transfer(bk, bk.max) && own.Tail() + Transfer(bk, bk.max) <= own.released + n
  }

  ghost predicate BookedBy(vic: Ring, c: nat, lo: int, hi: int, items: seq<Ptr>)
    requires |vic.buf| > 0
  {
    && vic.booker == Thief(c) && vic.released == lo < hi == vic.booked
    && |items| == hi - lo
    && forall i :: 0 <= i < |items| ==> At(vic, lo + i) == items[i]
  }

  /** The first `k` entries are written in the destination, and the rest fits. */
  ghost predicate Copied(own: Ring, n: int, bk: Booking, count: int, k: int, items: seq<Ptr>)
    requires |own.buf| == n > 0
  {
    && bk.ForSteal? && bk.destPush == own.push && bk.destTail == own.Tail()
    && 0 <= k <= Transfer(bk, count) && count == |items|
    && own.Tail() + Transfer(bk, count) <= own.released + n
    && forall i :: 0 <= i < k ==> At(own, own.Tail() + i) == items[i]
  }

  ghost predicate PcOk(own: Ring, vic: Ring, n: int, c: nat, pc: Pc)
    requires |own.buf| == |vic.buf| == n > 0
  {
    match pc
    case Idle => true
    case Done(_) => true
    case LoadedPush(_, push) => push == own.push
    case LoadedWord(_, push, pop, booked) => push == own.push && OwnRegs(own, n, pop, booked)
    case PushWrote(item, push) =>
      push == own.push && own.Tail() < own.released + n && At(own, own.Tail()) == item
    case Extending(items, k, push, pop, head) =>
      && push == own.push && pop == own.pop
      && head <= own.released && head <= own.Tail() && own.Tail() + k <= head + n
      && 0 <= k <= |items| && forall i :: 0 <= i < k ==> At(own, own.Tail() + i) == items[i]
    case PopWord(pop, booked) => OwnRegs(own, n, pop, booked)
    case PopLoaded(pop, booked, push) => push == own.push && OwnRegs(own, n, pop, booked)
    case PopTaken(at, item) => at == own.Tail() < own.released + n && At(own, at) == item
    case ToBook(bk) => DestOk(own, n, bk)
    case BookWord(bk, pop, booked) => DestOk(own, n, bk) && pop <= vic.pop && booked <= vic.booked
    case BookHead(bk, pop, booked, seen) =>
      DestOk(own, n, bk) && pop <= vic.pop && booked <= vic.booked && seen <= vic.released
    case BookPush(bk, pop, booked, seen, push) =>
      && DestOk(own, n, bk) && pop <= vic.pop && booked <= vic.booked && seen == booked <= vic.released
      && push <= vic.push
      && (pop == vic.pop && booked == vic.booked ==> booked <= push - pop)
    case Copying(bk, lo, hi, k, reg, items) =>
      && BookedBy(vic, c, lo, hi, items) && Copied(own, n, bk, hi - lo, k, items)
      && (reg == [] || (k < Transfer(bk, hi - lo) && reg == [items[k]]))
    case Publishing(bk, lo, hi, last, items) =>
      && BookedBy(vic, c, lo, hi, items) && Copied(own, n, bk, hi - lo, Transfer(bk, hi - lo), items)
      && last == if bk.andPop then [items[hi - lo - 1]] else []
    case Releasing(bk, hi, _) => bk.ForSteal? && vic.booker == Thief(c) && vic.booked == hi
  }

  ghost predicate DrainOk(q: Ring, d: Drain)
    requires |q.buf| > 0
  {
    d.Live? ==>
      && q.booker == Drainer && q.released <= d.cur <= d.end == q.booked
      && |d.items| == d.end - d.cur
      && forall i :: 0 <= i < |d.items| ==> At(q, d.cur + i) == d.items[i]
  }

  /** The named booker of a ring is an agent that really holds its window. */
  ghost predicate BookerOk(s: State, x: nat)
    requires Shape(s) && x < |s.qs|
  {
    match s.qs[x].booker
    case Nobody => true
    case Drainer => s.drains[x].Live?
    case Thief(t) => t < |s.pcs| && Holds(s.pcs[t]) && VictimOf(s.pcs[t], t) == x
  }

  ghost predicate CoreOk(s: State, c: nat)
    requires Shape(s) && c < |s.qs|
  {
    && RingOk(s.qs[c], s.n)
    && VictimFits(s.pcs[c], c, |s.qs|)
    && PcOk(s.qs[c], s.qs[VictimOf(s.pcs[c], c)], s.n, c, s.pcs[c])
    && DrainOk(s.qs[c], s.drains[c])
    && BookerOk(s, c)
  }

  ghost predicate Inv(s: State) {
    && Shape(s) && IsRingSize(s.n)
    && forall c :: 0 <= c < |s.qs| ==> CoreOk(s, c)
  }

  lemma InitInv(s: State)
    requires Init(s)
    ensures Inv(s)
  {
  }

  lemma CoreAt(s: State, c: nat)
    requires Inv(s) && c < |s.qs|
    ensures Shape(s) && IsRingSize(s.n) && CoreOk(s, c)
    ensures RingOk(s.qs[c], s.n) && VictimFits(s.pcs[c], c, |s.qs|)
    ensures PcOk(s.qs[c], s.qs[VictimOf(s.pcs[c], c)], s.n, c, s.pcs[c])
  {
  }

  // ----- interference -----

  /** The registers of a core before it books, of a push, a pop or an extend. */
  lemma OwnStable(own: Ring, vic: Ring, own': Ring, vic': Ring, n: int, c: nat, pc: Pc)
    requires |own.buf| == |vic.buf| == |own'.buf| == |vic'.buf| == n > 0
    requires !Holds(pc) && !pc.ToBook? && !pc.BookWord? && !pc.BookHead? && !pc.BookPush?
    requires PcOk(own, vic, n, c, pc) && Rely(own, own', true, Thief(c))
    ensures PcOk(own', vic', n, c, pc)
  {
  }

  lemma BookStable(own: Ring, vic: Ring, own': Ring, vic': Ring, n: int, c: nat, pc: Pc)
    requires |own.buf| == |vic.buf| == |own'.buf| == |vic'.buf| == n > 0
    requires pc.ToBook? || pc.BookWord? || pc.BookHead? || pc.BookPush?
    requires PcOk(own, vic, n, c, pc)
    requires Rely(own, own', true, Thief(c)) && Rely(vic, vic', false, Thief(c))
    ensures PcOk(own', vic', n, c, pc)
  {
  }

  lemma HoldStable(own: Ring, vic: Ring, own': Ring, vic': Ring, n: int, c: nat, pc: Pc)
    requires |own.buf| == |vic.buf| == |own'.buf| == |vic'.buf| == n > 0
    requires Holds(pc) && PcOk(own, vic, n, c, pc)
    requires Rely(own, own', true, Thief(c)) && Rely(vic, vic', false, Thief(c))
    ensures PcOk(own', vic', n, c, pc)
  {
  }

  /** A core's registers survive any step of the others. */
  lemma PcStable(own: Ring, vic: Ring, own': Ring, vic': Ring, n: int, c: nat, pc: Pc)
    requires |own.buf| == |vic.buf| == |own'.buf| == |vic'.buf| == n > 0
    requires PcOk(own, vic, n, c, pc)
    requires Rely(own, own', true, Thief(c)) && Rely(vic, vic', false, Thief(c))
    ensures PcOk(own', vic', n, c, pc)
  {
    hide PcOk, Rely;
    if Holds(pc) {
      HoldStable(own, vic, own', vic', n, c, pc);
    } else if pc.ToBook? || pc.BookWord? || pc.BookHead? || pc.BookPush? {
      BookStable(own, vic, own', vic', n, c, pc);
    } else {
      OwnStable(own, vic, own', vic', n, c, pc);
    }
  }

  lemma DrainStable(q: Ring, q': Ring, d: Drain)
    requires |q.buf| > 0 && DrainOk(q, d) && Rely(q, q', false, Drainer)
    ensures DrainOk(q', d)
  {
  }

  /** A step of core `c` that leaves every ring and every drain alone. */
  lemma LocalKeeps(s: State, c: nat, s': State)
    requires Inv(s) && Shape(s') && c < |s.qs| == |s'.qs|
    requires s'.n == s.n && s'.qs == s.qs && s'.drains == s.drains && s'.pcs == s.pcs[c := s'.pcs[c]]
    requires VictimFits(s'.pcs[c], c, |s.qs|)
    requires PcOk(s.qs[c], s.qs[VictimOf(s'.pcs[c], c)], s.n, c, s'.pcs[c])
    requires Holds(s.pcs[c]) ==> Holds(s'.pcs[c]) && VictimOf(s'.pcs[c], c) == VictimOf(s.pcs[c], c)
    ensures Inv(s')
  {
    forall x | 0 <= x < |s.qs| ensures CoreOk(s', x) {
      assert CoreOk(s, x);
    }
  }

  /** A step of core `c` that changes ring `x` only, in a way the others rely on. */
  lemma RingKeeps(s: State, c: nat, x: nat, s': State)
    requires Inv(s) && Shape(s') && c < |s.qs| == |s'.qs| && x < |s.qs|
    requires s'.n == s.n && s'.qs == s.qs[x := s'.qs[x]]
    requires s'.pcs == s.pcs[c := s'.pcs[c]] && s'.drains == s.drains[x := s'.drains[x]]
    requires RingOk(s'.qs[x], s.n)
    requires forall t :: 0 <= t < |s.qs| && t != c ==> Rely(s.qs[x], s'.qs[x], t == x, Thief(t))
    requires VictimFits(s'.pcs[c], c, |s.qs|)
    requires PcOk(s'.qs[c], s'.qs[VictimOf(s'.pcs[c], c)], s.n, c, s'.pcs[c])
    requires DrainOk(s'.qs[x], s'.drains[x]) && BookerOk(s', x)
    requires Holds(s.pcs[c]) ==>
      VictimOf(s.pcs[c], c) == x || (Holds(s'.pcs[c]) && VictimOf(s'.pcs[c], c) == VictimOf(s.pcs[c], c))
    ensures Inv(s')
  {
    forall t | 0 <= t < |s.qs| ensures CoreOk(s', t) {
      assert CoreOk(s, t);
      if t != c { OthersKeep(s, c, x, s', t); }
      assert BookerOk(s', t);
    }
  }

  lemma OthersKeep(s: State, c: nat, x: nat, s': State, t: nat)
    requires Shape(s) && Shape(s') && c < |s.qs| == |s'.qs| && x < |s.qs| && t < |s.qs| && t != c
    requires s'.n == s.n && s'.qs == s.qs[x := s'.qs[x]] && s'.pcs == s.pcs[c := s'.pcs[c]]
    requires CoreOk(s, t)
    requires Rely(s.qs[x], s'.qs[x], t == x, Thief(t))
    ensures PcOk(s'.qs[t], s'.qs[VictimOf(s'.pcs[t], t)], s.n, t, s'.pcs[t])
  {
    var v := VictimOf(s.pcs[t], t);
    PcStable(s.qs[t], s.qs[v], s'.qs[t], s'.qs[v], s.n, t, s.pcs[t]);
  }
}
