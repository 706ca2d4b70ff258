/** The static work-stealing queues as a step machine: K cores, each the one
    owner of its ring, any of them stealing from any other, and a drain object
    per ring that may run beside its owner.  One step is one atomic load, store
    or compare-and-swap, in sequentially consistent order.  The counts are
    unbounded; every comparison the code makes is made here on the low words,
    exactly as the code computes them. */
module LifoMachine {
  import opened Words
  import opened Ring

  /** What a core has been asked to do that starts by loading its own tail. */
  datatype Job =
    | Push(item: Ptr)
    | Extend(items: seq<Ptr>)
    | Steal(victim: nat, andPop: bool)

  /** Which call is booking: a steal into the core's own ring, where the
      destination registers were loaded before, or a drain of its own ring. */
  datatype Booking =
    | ForSteal(from: nat, andPop: bool, destPush: int, destTail: int, max: int)
    | ForDrain

  datatype Result =
    | Pushed
    | Rejected(item: Ptr)
    | Extended(left: seq<Ptr>)
    | Popped(item: Ptr)
    | Nothing
    | Stole(count: int)
    | StolePopped(item: Ptr, count: int)
    | Draining

  /** A core's program counter with its registers.  Registers named after a
      count hold the value loaded (`seen` is the head loaded before the retry
      loop); `items` of a copy is history: the entries
      that were booked. */
  datatype Pc =
    | Idle
    | LoadedPush(job: Job, push: int)
    | LoadedWord(job: Job, push: int, pop: int, booked: int)
    | PushWrote(item: Ptr, push: int)
    | Extending(items: seq<Ptr>, k: int, push: int, pop: int, head: int)
    | PopWord(pop: int, booked: int)
    | PopLoaded(pop: int, booked: int, push: int)
    | PopTaken(at: int, item: Ptr)
    | ToBook(bk: Booking)
    | BookWord(bk: Booking, pop: int, booked: int)
    | BookHead(bk: Booking, pop: int, booked: int, seen: int)
    | BookPush(bk: Booking, pop: int, booked: int, seen: int, push: int)
    | Copying(bk: Booking, lo: int, hi: int, k: int, reg: seq<Ptr>, items: seq<Ptr>)
    | Publishing(bk: Booking, lo: int, hi: int, last: seq<Ptr>, items: seq<Ptr>)
    | Releasing(bk: Booking, hi: int, result: Result)
    | Done(result: Result)

  /** A live drain: the positions still to hand out, and (history) their entries. */
  datatype Drain = NoDrain | Live(cur: int, end: int, items: seq<Ptr>)

  datatype State = State(
    n: int, qs: seq<Ring>, pcs: seq<Pc>, drains: seq<Drain>,
    hands: seq<multiset<Ptr>>,   // entries the callers hold
    lost: multiset<Ptr>)         // entries an `extend` found no room for

  predicate Shape(s: State) {
    && |s.qs| == |s.pcs| == |s.drains| == |s.hands|
    && forall c :: 0 <= c < |s.qs| ==> |s.qs[c].buf| == s.n > 0
  }

  function EmptyRing(n: nat): Ring { Ring(0, 0, 0, 0, seq(n, i => 0), Nobody) }

  predicate Init(s: State) {
    && Shape(s) && IsRingSize(s.n)
    && forall c :: 0 <= c < |s.qs| ==>
      s.qs[c] == EmptyRing(s.n) && s.pcs[c] == Idle && s.drains[c] == NoDrain
  }

  /** Ring sizes the code compiles for and whose window fits a word. */
  predicate IsRingSize(n: int) { 0 < n <= 0x8000_0000 }

  // ----- the words the code computes -----

  function Tail32(push: int, pop: int): u32 { WrappingSub(Low(push), Low(pop)) }

  /** `tail.wrapping_sub(head)` */
  function Len32(push: int, pop: int, head: int): int { WrappingSub(Tail32(push, pop), Low(head)) as int }

  function Min(a: int, b: int): int { if a <= b then a else b }

  function MaxCount(bk: Booking): int { if bk.ForDrain? then WORD - 1 else bk.max }

  /** How many items a booking takes when the caller's count function answers `f`. */
  function BookCount(f: nat, bk: Booking, push: int, pop: int, booked: int): (k: int)
    ensures k <= f && k <= MaxCount(bk) && k <= Len32(push, pop, booked)
    ensures k == f || k == MaxCount(bk) || k == Len32(push, pop, booked)
  {
    Min(Min(f, MaxCount(bk)), Len32(push, pop, booked))
  }

  /** Items copied into the destination ring: all booked ones, or all but the last. */
  function Transfer(bk: Booking, count: int): int
  {
    if bk.ForSteal? && bk.andPop then count - 1 else count
  }

  /** The ring a core's registers refer to besides its own. */
  function VictimOf(pc: Pc, c: nat): nat {
    match pc
    case LoadedPush(job, _) => if job.Steal? then job.victim else c
    case LoadedWord(job, _, _, _) => if job.Steal? then job.victim else c
    case ToBook(bk) => From(bk, c)
    case BookWord(bk, _, _) => From(bk, c)
    case BookHead(bk, _, _, _) => From(bk, c)
    case BookPush(bk, _, _, _, _) => From(bk, c)
    case Copying(bk, _, _, _, _, _) => From(bk, c)
    case Publishing(bk, _, _, _, _) => From(bk, c)
    case Releasing(bk, _, _) => From(bk, c)
    case _ => c
  }

  function From(bk: Booking, c: nat): nat { if bk.ForSteal? then bk.from else c }

  // ----- steps -----

  datatype Op = DoPush(item: Ptr) | DoExtend(items: seq<Ptr>) | DoPop | DoSteal(victim: nat, andPop: bool) | DoDrain

  datatype Act =
    | Start(op: Op)
    | LoadWord | LoadHead
    | PushRejects | PushWrites | PushStores
    | ExtendWrites | ExtendStores
    | PopLoads | PopEmpty | PopSwaps | PopRetries | PopReads
    | BookLoads | BookLoadsHead | BookBusy | BookLoadsPush
    | BookNone(f: nat) | BookSwaps(f: nat) | BookRetries(f: nat)
    | CopyReads | CopyWrites | CopyEnds | Publishes | Releases
    | DrainReads | DrainReleases
    | Return

  function SetPc(s: State, c: nat, pc: Pc): State
    requires c < |s.pcs|
  {
    s.(pcs := s.pcs[c := pc])
  }

  function SetQ(s: State, c: nat, q: Ring): State
    requires c < |s.qs|
  {
    s.(qs := s.qs[c := q])
  }

  /** The step `a` of core `c` (for the two drain actions: of the drain of its ring). */
  predicate Step(s: State, c: nat, a: Act, s': State) {
    && Shape(s) && c < |s.qs|
    && match a
       case Start(op) => StartStep(s, c, op, s')
       case LoadWord => LoadWordStep(s, c, s')
       case LoadHead => LoadHeadStep(s, c, s')
       case PushRejects => PushRejectsStep(s, c, s')
       case PushWrites => PushWritesStep(s, c, s')
       case PushStores => PushStoresStep(s, c, s')
       case ExtendWrites => ExtendWritesStep(s, c, s')
       case ExtendStores => ExtendStoresStep(s, c, s')
       case PopLoads => PopLoadsStep(s, c, s')
       case PopEmpty => PopEmptyStep(s, c, s')
       case PopSwaps => PopSwapsStep(s, c, s')
       case PopRetries => PopRetriesStep(s, c, s')
       case PopReads => PopReadsStep(s, c, s')
       case BookLoads => BookLoadsStep(s, c, s')
       case BookLoadsHead => BookLoadsHeadStep(s, c, s')
       case BookBusy => BookBusyStep(s, c, s')
       case BookLoadsPush => BookLoadsPushStep(s, c, s')
       case BookNone(f) => BookNoneStep(s, c, f, s')
       case BookSwaps(f) => BookSwapsStep(s, c, f, s')
       case BookRetries(f) => BookRetriesStep(s, c, f, s')
       case CopyReads => CopyReadsStep(s, c, s')
       case CopyWrites => CopyWritesStep(s, c, s')
       case CopyEnds => CopyEndsStep(s, c, s')
       case Publishes => PublishesStep(s, c, s')
       case Releases => ReleasesStep(s, c, s')
       case DrainReads => DrainReadsStep(s, c, s')
       case DrainReleases => DrainReleasesStep(s, c, s')
       case Return => ReturnStep(s, c, s')
  }

  /** Calling an operation and its first load. */
  predicate StartStep(s: State, c: nat, op: Op, s': State)
    requires Shape(s) && c < |s.qs|
  {
    var q := s.qs[c];
    && s.pcs[c] == Idle
    && match op
       case DoPush(item) =>
         && item in s.hands[c]
         && s' == SetPc(s, c, LoadedPush(Push(item), q.push)).(hands := s.hands[c := s.hands[c] - multiset{item}])
       case DoExtend(items) =>
         && multiset(items) <= s.hands[c]
         && s' == SetPc(s, c, LoadedPush(Extend(items), q.push)).(hands := s.hands[c := s.hands[c] - multiset(items)])
       case DoPop => s' == SetPc(s, c, PopWord(q.pop, q.booked))
       case DoSteal(v, andPop) =>
         && v < |s.qs| && v != c
         && s' == SetPc(s, c, LoadedPush(Steal(v, andPop), q.push))
       case DoDrain => s' == SetPc(s, c, BookWord(ForDrain, q.pop, q.booked))
  }

  predicate LoadWordStep(s: State, c: nat, s': State)
    requires Shape(s) && c < |s.qs|
  {
    var pc, q := s.pcs[c], s.qs[c];
    && pc.LoadedPush?
    && s' == SetPc(s, c, LoadedWord(pc.job, pc.push, q.pop, q.booked))
  }

  /** `extend` and both steals go on to load the released head of their ring. */
  predicate LoadHeadStep(s: State, c: nat, s': State)
    requires Shape(s) && c < |s.qs|
  {
    var pc, head := s.pcs[c], s.qs[c].released;
    && pc.LoadedWord?
    && match pc.job
       case Push(_) => false
       case Extend(items) => s' == SetPc(s, c, Extending(items, 0, pc.push, pc.pop, head))
       case Steal(v, andPop) =>
         var free := s.n - Len32(pc.push, pc.pop, head);
         s' == SetPc(s, c, ToBook(ForSteal(v, andPop, pc.push, pc.push - pc.pop, free + if andPop then 1 else 0)))
  }

  predicate PushRejectsStep(s: State, c: nat, s': State)
    requires Shape(s) && c < |s.qs|
  {
    var pc := s.pcs[c];
    && pc.LoadedWord? && pc.job.Push?
    && Len32(pc.push, pc.pop, pc.booked) >= s.n
    && s' == SetPc(s, c, Done(Rejected(pc.job.item)))
  }

  predicate PushWritesStep(s: State, c: nat, s': State)
    requires Shape(s) && c < |s.qs|
  {
    var pc := s.pcs[c];
    && pc.LoadedWord? && pc.job.Push?
    && Len32(pc.push, pc.pop, pc.booked) < s.n
    && s' == SetPc(SetQ(s, c, WriteAt(s.qs[c], pc.push - pc.pop, pc.job.item)), c, PushWrote(pc.job.item, pc.push))
  }

  predicate PushStoresStep(s: State, c: nat, s': State)
    requires Shape(s) && c < |s.qs|
  {
    var pc := s.pcs[c];
    && pc.PushWrote?
    && s' == SetPc(SetQ(s, c, s.qs[c].(push := pc.push + 1)), c, Done(Pushed))
  }

  predicate ExtendWritesStep(s: State, c: nat, s': State)
    requires Shape(s) && c < |s.qs|
  {
    var pc := s.pcs[c];
    && pc.Extending? && 0 <= pc.k < |pc.items|
    && Low(pc.push - pc.pop + pc.k) != Low(pc.head + s.n)
    && s' == SetPc(SetQ(s, c, WriteAt(s.qs[c], pc.push - pc.pop + pc.k, pc.items[pc.k])), c,
                   Extending(pc.items, pc.k + 1, pc.push, pc.pop, pc.head))
  }

  /** The loop ends with the iterator or with the room; the rest is dropped. */
  predicate ExtendStoresStep(s: State, c: nat, s': State)
    requires Shape(s) && c < |s.qs|
  {
    var pc := s.pcs[c];
    && pc.Extending? && 0 <= pc.k <= |pc.items|
    && (pc.k == |pc.items| || Low(pc.push - pc.pop + pc.k) == Low(pc.head + s.n))
    && s' == SetPc(SetQ(s, c, s.qs[c].(push := pc.push - pc.pop + pc.k + pc.pop)), c, Done(Extended(pc.items[pc.k..])))
  }

  predicate PopLoadsStep(s: State, c: nat, s': State)
    requires Shape(s) && c < |s.qs|
  {
    var pc := s.pcs[c];
    && pc.PopWord?
    && s' == SetPc(s, c, PopLoaded(pc.pop, pc.booked, s.qs[c].push))
  }

  predicate PopEmptyStep(s: State, c: nat, s': State)
    requires Shape(s) && c < |s.qs|
  {
    var pc := s.pcs[c];
    && pc.PopLoaded?
    && Tail32(pc.push, pc.pop) == Low(pc.booked)
    && s' == SetPc(s, c, Done(Nothing))
  }

  /** The swap that takes the newest entry; the entry itself is read after it. */
  predicate PopSwapsStep(s: State, c: nat, s': State)
    requires Shape(s) && c < |s.qs|
  {
    var pc, q := s.pcs[c], s.qs[c];
    && pc.PopLoaded?
    && Tail32(pc.push, pc.pop) != Low(pc.booked)
    && Pack(Low(q.pop), Low(q.booked)) == Pack(Low(pc.pop), Low(pc.booked))
    && s' == SetPc(SetQ(s, c, q.(pop := pc.pop + 1, booked := pc.booked)), c,
                   PopTaken(pc.push - pc.pop - 1, At(q, pc.push - pc.pop - 1)))
  }

  /** The swap fails, for a changed word or spuriously: only the head is reloaded. */
  predicate PopRetriesStep(s: State, c: nat, s': State)
    requires Shape(s) && c < |s.qs|
  {
    var pc := s.pcs[c];
    && pc.PopLoaded?
    && Tail32(pc.push, pc.pop) != Low(pc.booked)
    && s' == SetPc(s, c, PopLoaded(pc.pop, s.qs[c].booked, pc.push))
  }

  predicate PopReadsStep(s: State, c: nat, s': State)
    requires Shape(s) && c < |s.qs|
  {
    var pc := s.pcs[c];
    && pc.PopTaken?
    && s' == SetPc(s, c, Done(Popped(At(s.qs[c], pc.at))))
  }

  predicate BookLoadsStep(s: State, c: nat, s': State)
    requires Shape(s) && c < |s.qs|
  {
    var pc := s.pcs[c];
    && pc.ToBook? && From(pc.bk, c) < |s.qs|
    && var v := s.qs[From(pc.bk, c)];
       s' == SetPc(s, c, BookWord(pc.bk, v.pop, v.booked))
  }

  predicate BookLoadsHeadStep(s: State, c: nat, s': State)
    requires Shape(s) && c < |s.qs|
  {
    var pc := s.pcs[c];
    && pc.BookWord? && From(pc.bk, c) < |s.qs|
    && var v := s.qs[From(pc.bk, c)];
       s' == SetPc(s, c, BookHead(pc.bk, pc.pop, pc.booked, v.released))
  }

  predicate BookBusyStep(s: State, c: nat, s': State)
    requires Shape(s) && c < |s.qs|
  {
    var pc := s.pcs[c];
    && pc.BookHead?
    && Low(pc.seen) != Low(pc.booked)
    && s' == SetPc(s, c, Done(Nothing))
  }

  predicate BookLoadsPushStep(s: State, c: nat, s': State)
    requires Shape(s) && c < |s.qs|
  {
    var pc := s.pcs[c];
    && pc.BookHead? && From(pc.bk, c) < |s.qs|
    && Low(pc.seen) == Low(pc.booked)
    && var v := s.qs[From(pc.bk, c)];
       s' == SetPc(s, c, BookPush(pc.bk, pc.pop, pc.booked, pc.seen, v.push))
  }

  predicate BookNoneStep(s: State, c: nat, f: nat, s': State)
    requires Shape(s) && c < |s.qs|
  {
    var pc := s.pcs[c];
    && pc.BookPush?
    && BookCount(f, pc.bk, pc.push, pc.pop, pc.booked) == 0
    && s' == SetPc(s, c, Done(Nothing))
  }

  predicate BookSwapsStep(s: State, c: nat, f: nat, s': State)
    requires Shape(s) && c < |s.qs|
  {
    var pc := s.pcs[c];
    && pc.BookPush? && From(pc.bk, c) < |s.qs|
    && var x := From(pc.bk, c);
       var v, count := s.qs[x], BookCount(f, pc.bk, pc.push, pc.pop, pc.booked);
       && count > 0
       && Pack(Low(v.pop), Low(v.booked)) == Pack(Low(pc.pop), Low(pc.booked))
       && var lo, hi := pc.booked, pc.booked + count;
          var v' := v.(pop := pc.pop, booked := hi, booker := if pc.bk.ForDrain? then Drainer else Thief(c));
          var items := Items(v, lo, hi);
          if pc.bk.ForDrain? then
            s' == SetPc(SetQ(s, x, v'), c, Done(Draining)).(drains := s.drains[c := Live(lo, hi, items)])
          else
            s' == SetPc(SetQ(s, x, v'), c, Copying(pc.bk, lo, hi, 0, [], items))
  }

  /** The swap fails: the word is reloaded, the head loaded before the loop is kept. */
  predicate BookRetriesStep(s: State, c: nat, f: nat, s': State)
    requires Shape(s) && c < |s.qs|
  {
    var pc := s.pcs[c];
    && pc.BookPush? && From(pc.bk, c) < |s.qs|
    && BookCount(f, pc.bk, pc.push, pc.pop, pc.booked) > 0
    && var v := s.qs[From(pc.bk, c)];
       s' == SetPc(s, c, BookHead(pc.bk, v.pop, v.booked, pc.seen))
  }

  predicate CopyReadsStep(s: State, c: nat, s': State)
    requires Shape(s) && c < |s.qs|
  {
    var pc := s.pcs[c];
    && pc.Copying? && From(pc.bk, c) < |s.qs|
    && pc.reg == [] && pc.k < Transfer(pc.bk, pc.hi - pc.lo)
    && s' == SetPc(s, c, Copying(pc.bk, pc.lo, pc.hi, pc.k, [At(s.qs[From(pc.bk, c)], pc.lo + pc.k)], pc.items))
  }

  predicate CopyWritesStep(s: State, c: nat, s': State)
    requires Shape(s) && c < |s.qs|
  {
    var pc := s.pcs[c];
    && pc.Copying? && pc.bk.ForSteal?
    && |pc.reg| == 1
    && s' == SetPc(SetQ(s, c, WriteAt(s.qs[c], pc.bk.destTail + pc.k, pc.reg[0])), c,
                   Copying(pc.bk, pc.lo, pc.hi, pc.k + 1, [], pc.items))
  }

  /** End of the copy loop; `steal_and_pop` reads the last booked entry here. */
  predicate CopyEndsStep(s: State, c: nat, s': State)
    requires Shape(s) && c < |s.qs|
  {
    var pc := s.pcs[c];
    && pc.Copying? && pc.bk.ForSteal? && From(pc.bk, c) < |s.qs|
    && pc.reg == [] && pc.k == Transfer(pc.bk, pc.hi - pc.lo)
    && s' == SetPc(s, c, Publishing(pc.bk, pc.lo, pc.hi,
         if pc.bk.andPop then [At(s.qs[pc.bk.from], pc.lo + pc.k)] else [], pc.items))
  }

  predicate PublishesStep(s: State, c: nat, s': State)
    requires Shape(s) && c < |s.qs|
  {
    var pc := s.pcs[c];
    && pc.Publishing? && pc.bk.ForSteal?
    && var transfer := Transfer(pc.bk, pc.hi - pc.lo);
       s' == SetPc(SetQ(s, c, s.qs[c].(push := pc.bk.destPush + transfer)), c,
         Releasing(pc.bk, pc.hi, if |pc.last| > 0 then StolePopped(pc.last[0], transfer) else Stole(transfer)))
  }

  predicate ReleasesStep(s: State, c: nat, s': State)
    requires Shape(s) && c < |s.qs|
  {
    var pc := s.pcs[c];
    && pc.Releasing? && From(pc.bk, c) < |s.qs|
    && var x := From(pc.bk, c);
       s' == SetPc(SetQ(s, x, s.qs[x].(released := pc.hi, booker := Nobody)), c, Done(pc.result))
  }

  /** `Drain::next`: the caller gets the entry. */
  predicate DrainReadsStep(s: State, c: nat, s': State)
    requires Shape(s) && c < |s.qs|
  {
    var d := s.drains[c];
    && d.Live? && d.cur < d.end && |d.items| > 0
    && s' == s.(drains := s.drains[c := Live(d.cur + 1, d.end, d.items[1..])],
                hands := s.hands[c := s.hands[c] + multiset{At(s.qs[c], d.cur)}])
  }

  /** The store that `next` makes with the last entry. */
  predicate DrainReleasesStep(s: State, c: nat, s': State)
    requires Shape(s) && c < |s.qs|
  {
    var d := s.drains[c];
    && d.Live? && d.cur == d.end
    && s' == SetQ(s, c, s.qs[c].(released := d.end, booker := Nobody)).(drains := s.drains[c := NoDrain])
  }

  /** The caller takes the result. */
  predicate ReturnStep(s: State, c: nat, s': State)
    requires Shape(s) && c < |s.qs|
  {
    var pc := s.pcs[c];
    && pc.Done?
    && match pc.result
       case Rejected(item) => s' == SetPc(s, c, Idle).(hands := s.hands[c := s.hands[c] + multiset{item}])
       case Popped(item) => s' == SetPc(s, c, Idle).(hands := s.hands[c := s.hands[c] + multiset{item}])
       case StolePopped(item, _) => s' == SetPc(s, c, Idle).(hands := s.hands[c := s.hands[c] + multiset{item}])
       case Extended(left) => s' == SetPc(s, c, Idle).(lost := s.lost + multiset(left))
       case _ => s' == SetPc(s, c, Idle)
  }

  // ----- what a run assumes of its clients and its schedule -----

  /** No core sleeps through a whole wrap of a counter: fewer than 2^32 pops and
      fewer than 2^32 bookings pass between a booking's loads and its swap. */
  predicate Timely(s: State, c: nat)
    requires Shape(s) && c < |s.qs|
  {
    var pc := s.pcs[c];
    (pc.BookWord? || pc.BookHead? || pc.BookPush?) && From(pc.bk, c) < |s.qs| ==>
      var v := s.qs[From(pc.bk, c)];
      && v.pop - pc.pop < WORD && v.booked - pc.booked < WORD
      && (!pc.BookWord? ==> v.booked - pc.seen < WORD)
  }

  /** `push` checks its room against the booked head; a client is disciplined
      when it pushes only with room below the released head as well. */
  predicate Disciplined(s: State, c: nat, a: Act)
    requires Shape(s) && c < |s.qs|
  {
    a == PushWrites ==> s.qs[c].Tail() < s.qs[c].released + s.n
  }

  /** One step of a run: which core, which action. */
  datatype Label = Label(core: nat, act: Act)

  predicate Next(s: State, l: Label, s': State) {
    && Step(s, l.core, l.act, s')
    && Timely(s, l.core)
    && Disciplined(s, l.core, l.act)
  }
}
