/** Conservation: the entries in all queues, in transit between them, in live
    drains, in the callers' hands and dropped by `extend` are the same multiset
    in every state of a run. */
module LifoConservation {
  import opened Words
  import opened Ring
  import opened LifoMachine
  import opened BagSums
  import opened LifoInvariant
  import LifoSafety
  import opened LifoRefinement

  // ----- where an entry can be -----

  function ResultBag(r: Result): multiset<Ptr> {
    match r
    case Rejected(item) => multiset{item}
    case Popped(item) => multiset{item}
    case StolePopped(item, _) => multiset{item}
    case Extended(left) => multiset(left)
    case _ => multiset{}
  }

  /** Entries an operation holds: to be pushed, taken and not yet returned, or
      booked and not yet published. */
  function HeldBy(pc: Pc): multiset<Ptr> {
    match pc
    case LoadedPush(job, _) => JobBag(job)
    case LoadedWord(job, _, _, _) => JobBag(job)
    case PushWrote(item, _) => multiset{item}
    case Extending(items, _, _, _, _) => multiset(items)
    case PopTaken(_, item) => multiset{item}
    case Copying(_, _, _, _, _, items) => multiset(items)
    case Publishing(_, _, _, _, items) => multiset(items)
    case Releasing(_, _, r) => ResultBag(r)
    case Done(r) => ResultBag(r)
    case _ => multiset{}
  }

  function JobBag(job: Job): multiset<Ptr> {
    match job
    case Push(item) => multiset{item}
    case Extend(items) => multiset(items)
    case Steal(_, _) => multiset{}
  }

  function DrainBag(d: Drain): multiset<Ptr> { if d.Live? then multiset(d.items) else multiset{} }

  ghost function CoreBag(s: State, c: nat): multiset<Ptr>
    requires Inv(s) && c < |s.qs|
  {
    multiset(Deque(s, c)) + HeldBy(s.pcs[c]) + DrainBag(s.drains[c]) + s.hands[c]
  }

  ghost function Bags(s: State): seq<multiset<Ptr>>
    requires Inv(s)
  {
    seq(|s.qs|, c requires 0 <= c < |s.qs| => CoreBag(s, c))
  }

  ghost function Total(s: State): multiset<Ptr>
    requires Inv(s)
  {
    Sum(Bags(s)) + s.lost
  }

  // ----- one step -----

  /** Nothing moves but inside core `c`, and between it and the lost entries. */
  lemma OneCore(s: State, s': State, c: nat)
    requires Inv(s) && Inv(s') && c < |s.qs| == |s'.qs|
    requires forall x :: 0 <= x < |s.qs| && x != c ==> CoreBag(s', x) == CoreBag(s, x)
    requires CoreBag(s', c) + s'.lost == CoreBag(s, c) + s.lost
    ensures Total(s') == Total(s)
  {
    assert Bags(s') == Bags(s)[c := CoreBag(s', c)];
    SumUpdate(Bags(s), c, CoreBag(s', c));
    assert Sum(Bags(s')) + CoreBag(s, c) == Sum(Bags(s)) + CoreBag(s', c);
    MoveAcross(Sum(Bags(s')), CoreBag(s, c), s.lost, Sum(Bags(s)), CoreBag(s', c), s'.lost);
  }

  lemma TwoCores(s: State, s': State, c: nat, v: nat)
    requires Inv(s) && Inv(s') && c < |s.qs| == |s'.qs| && v < |s.qs| && v != c && s'.lost == s.lost
    requires forall x :: 0 <= x < |s.qs| && x != c && x != v ==> CoreBag(s', x) == CoreBag(s, x)
    requires CoreBag(s', c) + CoreBag(s', v) == CoreBag(s, c) + CoreBag(s, v)
    ensures Total(s') == Total(s)
  {
    assert Bags(s') == Bags(s)[c := CoreBag(s', c)][v := CoreBag(s', v)];
    SumUpdateTwo(Bags(s), c, CoreBag(s', c), v, CoreBag(s', v));
  }

  /** The other cores keep what they have: only `c` moves registers, drain and hand. */
  lemma OthersBags(s: State, s': State, c: nat, x: nat, d: seq<Ptr>)
    requires Inv(s) && Inv(s') && c < |s.qs| == |s'.qs| && x < |s.qs|
    requires OneDeque(s, s', x, d)
    requires s'.pcs == s.pcs[c := s'.pcs[c]] && s'.drains == s.drains[c := s'.drains[c]]
    requires s'.hands == s.hands[c := s'.hands[c]]
    ensures forall y :: 0 <= y < |s.qs| && y != c && y != x ==> CoreBag(s', y) == CoreBag(s, y)
    ensures x != c ==>
      CoreBag(s', c) == multiset(Deque(s, c)) + HeldBy(s'.pcs[c]) + DrainBag(s'.drains[c]) + s'.hands[c]
    ensures x != c ==> CoreBag(s', x) == multiset(d) + HeldBy(s.pcs[x]) + DrainBag(s.drains[x]) + s.hands[x]
  {
  }

  /** A step inside core `c` that keeps the sum of what the core holds. */
  lemma CoreMoves(s: State, s': State, c: nat)
    requires Inv(s) && Inv(s') && c < |s.qs| == |s'.qs|
    requires OneDeque(s, s', c, Deque(s', c))
    requires s'.pcs == s.pcs[c := s'.pcs[c]] && s'.drains == s.drains[c := s'.drains[c]]
    requires s'.hands == s.hands[c := s'.hands[c]]
    requires CoreBag(s', c) + s'.lost == CoreBag(s, c) + s.lost
    ensures Total(s') == Total(s)
  {
    OthersBags(s, s', c, c, Deque(s', c));
    OneCore(s, s', c);
  }

  /** What a step of core `c` may touch besides the rings. */
  predicate Frame(s: State, c: nat, s': State)
    requires c < |s.pcs| == |s'.pcs| == |s.drains| == |s'.drains| == |s.hands| == |s'.hands|
  {
    && s'.pcs == s.pcs[c := s'.pcs[c]] && s'.drains == s.drains[c := s'.drains[c]]
    && s'.hands == s.hands[c := s'.hands[c]]
  }

  lemma StepFrame(s: State, c: nat, a: Act, s': State)
    requires Step(s, c, a, s')
    ensures |s'.qs| == |s.qs| == |s'.pcs| == |s'.drains| == |s'.hands|
    ensures Frame(s, c, s')
    ensures !a.Return? ==> s'.lost == s.lost
    ensures !a.Return? && !a.Start? && !a.DrainReads? ==> s'.hands[c] == s.hands[c]
    ensures !a.BookSwaps? && !a.DrainReads? && !a.DrainReleases? ==> s'.drains[c] == s.drains[c]
  {
    if a.Start? || a.Return? || a.DrainReads? || a.DrainReleases? {
      HandFrame(s, c, a, s');
    } else {
      QuietFrame(s, c, a, s');
    }
  }

  lemma StartFrame(s: State, c: nat, op: Op, s': State)
    requires Step(s, c, Start(op), s')
    ensures |s'.qs| == |s.qs| == |s'.pcs| == |s'.drains| == |s'.hands|
    ensures Frame(s, c, s') && s'.lost == s.lost && s'.drains == s.drains
  {
  }

  lemma ReturnFrame(s: State, c: nat, s': State)
    requires Step(s, c, Return, s')
    ensures |s'.qs| == |s.qs| == |s'.pcs| == |s'.drains| == |s'.hands|
    ensures Frame(s, c, s') && s'.drains == s.drains
  {
  }

  lemma HandFrame(s: State, c: nat, a: Act, s': State)
    requires Step(s, c, a, s') && (a.Start? || a.Return? || a.DrainReads? || a.DrainReleases?)
    ensures |s'.qs| == |s.qs| == |s'.pcs| == |s'.drains| == |s'.hands|
    ensures Frame(s, c, s') && (!a.Return? ==> s'.lost == s.lost)
    ensures a.Start? || a.Return? ==> s'.drains[c] == s.drains[c]
    ensures a.DrainReleases? ==> s'.hands[c] == s.hands[c]
  {
    if a.Start? {
      hide Step;
      StartFrame(s, c, a.op, s');
    } else if a.Return? {
      hide Step;
      ReturnFrame(s, c, s');
    }
  }

  lemma QuietFrame(s: State, c: nat, a: Act, s': State)
    requires Step(s, c, a, s') && !a.Start? && !a.Return? && !a.DrainReads? && !a.DrainReleases?
    ensures |s'.qs| == |s.qs| == |s'.pcs| == |s'.drains| == |s'.hands|
    ensures Frame(s, c, s') && s'.lost == s.lost && s'.hands == s.hands
    ensures !a.BookSwaps? ==> s'.drains == s.drains
  {
  }

  /** No deque changes and core `c` holds what it held. */
  lemma SameHeld(s: State, s': State, c: nat)
    requires Inv(s) && Inv(s') && c < |s.qs| == |s'.qs| && SameDeques(s, s') && Frame(s, c, s')
    requires s'.lost == s.lost && s'.hands[c] == s.hands[c]
    requires HeldBy(s'.pcs[c]) == HeldBy(s.pcs[c]) && DrainBag(s'.drains[c]) == DrainBag(s.drains[c])
    ensures Total(s') == Total(s)
  {
    CoreMoves(s, s', c);
  }

  lemma LoadHeld(s: State, c: nat, s': State)
    requires Shape(s) && c < |s.qs| && (LoadWordStep(s, c, s') || PushRejectsStep(s, c, s'))
    ensures |s'.pcs| == |s.pcs| && HeldBy(s'.pcs[c]) == HeldBy(s.pcs[c])
  {
  }

  lemma LoadHeadHeld(s: State, c: nat, s': State)
    requires Shape(s) && c < |s.qs| && LoadHeadStep(s, c, s')
    ensures |s'.pcs| == |s.pcs| && HeldBy(s'.pcs[c]) == HeldBy(s.pcs[c])
  {
  }

  lemma PopHeld(s: State, c: nat, s': State)
    requires Shape(s) && c < |s.qs| && (PopLoadsStep(s, c, s') || PopEmptyStep(s, c, s') || PopRetriesStep(s, c, s'))
    ensures |s'.pcs| == |s.pcs| && HeldBy(s'.pcs[c]) == HeldBy(s.pcs[c])
  {
  }

  lemma BookHeld(s: State, c: nat, f: nat, s': State)
    requires Shape(s) && c < |s.qs|
    requires BookLoadsStep(s, c, s') || BookLoadsHeadStep(s, c, s') || BookBusyStep(s, c, s')
      || BookLoadsPushStep(s, c, s') || BookNoneStep(s, c, f, s') || BookRetriesStep(s, c, f, s')
    ensures |s'.pcs| == |s.pcs| && HeldBy(s'.pcs[c]) == HeldBy(s.pcs[c])
  {
  }

  lemma CopyHeld(s: State, c: nat, s': State)
    requires Shape(s) && c < |s.qs|
    requires CopyReadsStep(s, c, s') || CopyEndsStep(s, c, s') || CopyWritesStep(s, c, s')
    ensures |s'.pcs| == |s.pcs| && HeldBy(s'.pcs[c]) == HeldBy(s.pcs[c])
  {
  }

  lemma PushWritesHeld(s: State, c: nat, s': State)
    requires Shape(s) && c < |s.qs| && PushWritesStep(s, c, s')
    ensures |s'.pcs| == |s.pcs| && HeldBy(s'.pcs[c]) == HeldBy(s.pcs[c])
  {
    hide WriteAt, Len32;
  }

  lemma ExtendWritesHeld(s: State, c: nat, s': State)
    requires Shape(s) && c < |s.qs| && ExtendWritesStep(s, c, s')
    ensures |s'.pcs| == |s.pcs| && HeldBy(s'.pcs[c]) == HeldBy(s.pcs[c])
  {
    hide WriteAt, Low;
  }

  lemma ReleasesHeld(s: State, c: nat, s': State)
    requires Shape(s) && c < |s.qs| && ReleasesStep(s, c, s')
    ensures |s'.pcs| == |s.pcs| && HeldBy(s'.pcs[c]) == HeldBy(s.pcs[c])
  {
  }

  /** Steps after which the core holds the same entries as before. */
  predicate Quiet(a: Act) {
    (RegistersOnly(a) && !a.Start? && !a.Return?)
    || a.PopEmpty? || a.PushWrites? || a.ExtendWrites? || a.CopyWrites? || a.Releases?
  }

  lemma QuietHeld(s: State, c: nat, a: Act, s': State)
    requires Step(s, c, a, s') && Quiet(a)
    ensures |s'.pcs| == |s.pcs| && HeldBy(s'.pcs[c]) == HeldBy(s.pcs[c])
  {
    hide HeldBy;
    if a.LoadWord? || a.PushRejects? { LoadHeld(s, c, s'); }
    else if a.LoadHead? { LoadHeadHeld(s, c, s'); }
    else if a.PopLoads? || a.PopEmpty? || a.PopRetries? { PopHeld(s, c, s'); }
    else if a.CopyReads? || a.CopyEnds? || a.CopyWrites? { CopyHeld(s, c, s'); }
    else if a.PushWrites? { PushWritesHeld(s, c, s'); }
    else if a.ExtendWrites? { ExtendWritesHeld(s, c, s'); }
    else if a.Releases? { ReleasesHeld(s, c, s'); }
    else { BookHeld(s, c, if a.BookNone? || a.BookRetries? then a.f else 0, s'); }
  }

  lemma QuietConserves(s: State, l: Label, s': State)
    requires Inv(s) && Inv(s') && Step(s, l.core, l.act, s') && |s'.qs| == |s.qs| && SameDeques(s, s')
    requires Quiet(l.act)
    ensures Total(s') == Total(s)
  {
    StepFrame(s, l.core, l.act, s');
    QuietHeld(s, l.core, l.act, s');
    SameHeld(s, s', l.core);
  }

  lemma PopReadsConserves(s: State, c: nat, s': State)
    requires Inv(s) && Inv(s') && c < |s.qs| == |s'.qs| && PopReadsStep(s, c, s') && SameDeques(s, s')
    ensures Total(s') == Total(s)
  {
    assert CoreOk(s, c);
    StepFrame(s, c, PopReads, s');
    SameHeld(s, s', c);
  }

  lemma DrainReleasesConserves(s: State, c: nat, s': State)
    requires Inv(s) && Inv(s') && c < |s.qs| == |s'.qs| && DrainReleasesStep(s, c, s') && SameDeques(s, s')
    ensures Total(s') == Total(s)
  {
    assert CoreOk(s, c);
    StepFrame(s, c, DrainReleases, s');
    assert s.drains[c].items == [];
    SameHeld(s, s', c);
  }

  /** An operation takes `x` from the caller's hand. */
  lemma TakesFromHand(s: State, s': State, c: nat, x: multiset<Ptr>)
    requires Inv(s) && Inv(s') && c < |s.qs| == |s'.qs| && SameDeques(s, s') && Frame(s, c, s')
    requires s'.lost == s.lost && x <= s.hands[c] && s'.hands[c] == s.hands[c] - x
    requires HeldBy(s.pcs[c]) == multiset{} && HeldBy(s'.pcs[c]) == x && s'.drains[c] == s.drains[c]
    ensures Total(s') == Total(s)
  {
    TakeOut(multiset(Deque(s, c)), x, DrainBag(s.drains[c]), s.hands[c]);
    CoreMoves(s, s', c);
  }

  lemma TakeOut(d: multiset<Ptr>, x: multiset<Ptr>, w: multiset<Ptr>, h: multiset<Ptr>)
    requires x <= h
    ensures d + x + w + (h - x) == d + multiset{} + w + h
  {
  }

  lemma PutIn(d: multiset<Ptr>, x: multiset<Ptr>, w: multiset<Ptr>, h: multiset<Ptr>)
    ensures d + multiset{} + w + (h + x) == d + x + w + h
  {
  }

  lemma PutAway(d: multiset<Ptr>, x: multiset<Ptr>, w: multiset<Ptr>, h: multiset<Ptr>, l: multiset<Ptr>)
    ensures (d + multiset{} + w + h) + (l + x) == (d + x + w + h) + l
  {
  }

  /** The held entries `x` go to the caller's hand or are lost. */
  lemma GivesUp(s: State, s': State, c: nat, x: multiset<Ptr>)
    requires Inv(s) && Inv(s') && c < |s.qs| == |s'.qs| && SameDeques(s, s') && Frame(s, c, s')
    requires HeldBy(s.pcs[c]) == x && HeldBy(s'.pcs[c]) == multiset{} && s'.drains[c] == s.drains[c]
    requires || (s'.lost == s.lost && s'.hands[c] == s.hands[c] + x)
             || (s'.lost == s.lost + x && s'.hands[c] == s.hands[c])
    ensures Total(s') == Total(s)
  {
    PutIn(multiset(Deque(s, c)), x, DrainBag(s.drains[c]), s.hands[c]);
    PutAway(multiset(Deque(s, c)), x, DrainBag(s.drains[c]), s.hands[c], s.lost);
    CoreMoves(s, s', c);
  }

  function OpBag(op: Op): multiset<Ptr> {
    match op
    case DoPush(item) => multiset{item}
    case DoExtend(items) => multiset(items)
    case _ => multiset{}
  }

  function StartPc(q: Ring, op: Op): Pc {
    match op
    case DoPush(item) => LoadedPush(Push(item), q.push)
    case DoExtend(items) => LoadedPush(Extend(items), q.push)
    case DoPop => PopWord(q.pop, q.booked)
    case DoSteal(v, andPop) => LoadedPush(Steal(v, andPop), q.push)
    case DoDrain => BookWord(ForDrain, q.pop, q.booked)
  }

  lemma StartsAt(s: State, c: nat, op: Op, s': State)
    requires Shape(s) && c < |s.qs| && StartStep(s, c, op, s')
    ensures |s'.pcs| == |s.pcs| && s.pcs[c] == Idle && s'.pcs[c] == StartPc(s.qs[c], op)
  {
  }

  lemma StartHeld(s: State, c: nat, op: Op, s': State)
    requires Shape(s) && c < |s.qs| && StartStep(s, c, op, s')
    ensures |s'.pcs| == |s.pcs| && HeldBy(s.pcs[c]) == multiset{} && HeldBy(s'.pcs[c]) == OpBag(op)
  {
    hide StartStep;
    StartsAt(s, c, op, s');
  }

  lemma StartHand(s: State, c: nat, op: Op, s': State)
    requires Shape(s) && c < |s.qs| && StartStep(s, c, op, s')
    ensures |s'.hands| == |s.hands| && OpBag(op) <= s.hands[c] && s'.hands[c] == s.hands[c] - OpBag(op)
  {
    match op
    case DoPush(item) =>
    case DoExtend(items) =>
    case _ => assert s.hands[c] - multiset{} == s.hands[c];
  }

  lemma StartConserves(s: State, c: nat, op: Op, s': State)
    requires Inv(s) && Inv(s') && c < |s.qs| == |s'.qs| && Step(s, c, Start(op), s') && SameDeques(s, s')
    ensures Total(s') == Total(s)
  {
    StepFrame(s, c, Start(op), s');
    StartHeld(s, c, op, s');
    StartHand(s, c, op, s');
    TakesFromHand(s, s', c, OpBag(op));
  }

  lemma ReturnHeld(s: State, c: nat, s': State)
    requires Shape(s) && c < |s.qs| && ReturnStep(s, c, s')
    ensures |s'.pcs| == |s.pcs| && |s'.hands| == |s.hands| && s.pcs[c].Done?
    ensures var x := ResultBag(s.pcs[c].result);
      || (s'.lost == s.lost && s'.hands[c] == s.hands[c] + x)
      || (s'.lost == s.lost + x && s'.hands[c] == s.hands[c])
    ensures HeldBy(s'.pcs[c]) == multiset{}
  {
    assert s.hands[c] + multiset{} == s.hands[c];
  }

  lemma ReturnConserves(s: State, c: nat, s': State)
    requires Inv(s) && Inv(s') && c < |s.qs| == |s'.qs| && Step(s, c, Return, s') && SameDeques(s, s')
    ensures Total(s') == Total(s)
  {
    StepFrame(s, c, Return, s');
    ReturnHeld(s, c, s');
    GivesUp(s, s', c, ResultBag(s.pcs[c].result));
  }

  lemma Regroup(d: multiset<Ptr>, a: multiset<Ptr>, b: multiset<Ptr>, w: multiset<Ptr>, h: multiset<Ptr>)
    ensures (d + a) + b + w + h == d + (a + b) + w + h
  {
  }

  /** The first `k` held entries go to the back of the core's deque. */
  lemma MovesToDeque(s: State, s': State, c: nat, items: seq<Ptr>, k: nat)
    requires Inv(s) && Inv(s') && c < |s.qs| == |s'.qs| && Frame(s, c, s') && k <= |items|
    requires s'.lost == s.lost && s'.hands[c] == s.hands[c] && s'.drains[c] == s.drains[c]
    requires OneDeque(s, s', c, Deque(s, c) + items[..k])
    requires HeldBy(s.pcs[c]) == multiset(items) && HeldBy(s'.pcs[c]) == multiset(items[k..])
    ensures Total(s') == Total(s)
  {
    SplitBag(items, k);
    Regroup(multiset(Deque(s, c)), multiset(items[..k]), multiset(items[k..]), DrainBag(s.drains[c]), s.hands[c]);
    assert multiset(Deque(s, c) + items[..k]) == multiset(Deque(s, c)) + multiset(items[..k]);
    CoreMoves(s, s', c);
  }

  lemma PushStoresConserves(s: State, c: nat, s': State)
    requires Inv(s) && Inv(s') && c < |s.qs| == |s'.qs| && Step(s, c, PushStores, s')
    requires OneDeque(s, s', c, Deque(s, c) + [s.pcs[c].item])
    ensures Total(s') == Total(s)
  {
    var items := [s.pcs[c].item];
    StepFrame(s, c, PushStores, s');
    assert items[..1] == items && items[1..] == [];
    MovesToDeque(s, s', c, items, 1);
  }

  lemma ExtendStoresConserves(s: State, c: nat, s': State)
    requires Inv(s) && Inv(s') && c < |s.qs| == |s'.qs| && Step(s, c, ExtendStores, s')
    requires OneDeque(s, s', c, Deque(s, c) + s.pcs[c].items[..s.pcs[c].k])
    ensures Total(s') == Total(s)
  {
    StepFrame(s, c, ExtendStores, s');
    MovesToDeque(s, s', c, s.pcs[c].items, s.pcs[c].k);
  }

  /** What is left to hold once a steal has published: nothing, or the last booked entry. */
  lemma PublishHeld(s: State, c: nat, s': State)
    requires Inv(s) && c < |s.qs| && PublishesStep(s, c, s')
    ensures |s'.pcs| == |s.pcs|
    ensures var pc := s.pcs[c]; var t := Transfer(pc.bk, |pc.items|);
      && 0 <= t <= |pc.items| && HeldBy(pc) == multiset(pc.items)
      && HeldBy(s'.pcs[c]) == multiset(pc.items[t..])
  {
    hide Inv, CoreOk, RingOk, VictimFits, PcOk, Step, Total;
    CoreAt(s, c);
    var pc := s.pcs[c];
    PublishedItems(s.qs[c], s.qs[VictimOf(pc, c)], s.n, c, pc);
    var t := Transfer(pc.bk, |pc.items|);
    LastItem(pc.items, pc.bk.andPop, t);
  }

  lemma LastItem(items: seq<Ptr>, andPop: bool, t: int)
    requires 0 <= t <= |items| && t == if andPop then |items| - 1 else |items|
    ensures items[t..] == if andPop then [items[t]] else []
  {
  }

  lemma PublishesConserves(s: State, c: nat, s': State)
    requires Inv(s) && Inv(s') && c < |s.qs| == |s'.qs| && Step(s, c, Publishes, s')
    requires DequeStep(s, Label(c, Publishes), s')
    ensures Total(s') == Total(s)
  {
    StepFrame(s, c, Publishes, s');
    PublishHeld(s, c, s');
    MovesToDeque(s, s', c, s.pcs[c].items, Transfer(s.pcs[c].bk, |s.pcs[c].items|));
  }

  lemma PopSwapsConserves(s: State, c: nat, s': State)
    requires Inv(s) && Inv(s') && c < |s.qs| == |s'.qs| && Step(s, c, PopSwaps, s')
    requires Deque(s, c) == Deque(s', c) + [s'.pcs[c].item] && OneDeque(s, s', c, Deque(s', c))
    ensures Total(s') == Total(s)
  {
    hide Inv, Deque, OneDeque, Frame, CoreBag, Total;
    StepFrame(s, c, PopSwaps, s');
    PopSwapsHeld(s, c, s');
    hide Step;
    PopMoves(s, c, s');
  }

  lemma PopSwapsHeld(s: State, c: nat, s': State)
    requires Step(s, c, PopSwaps, s')
    ensures |s'.pcs| == |s.pcs| == |s.qs| && c < |s.pcs|
    ensures HeldBy(s.pcs[c]) == multiset{} && s'.pcs[c].PopTaken? && HeldBy(s'.pcs[c]) == multiset{s'.pcs[c].item}
  {
  }

  lemma PopMoves(s: State, c: nat, s': State)
    requires Inv(s) && Inv(s') && c < |s.qs| == |s'.qs| && Frame(s, c, s')
    requires s'.lost == s.lost && s'.hands[c] == s.hands[c] && s'.drains[c] == s.drains[c]
    requires s'.pcs[c].PopTaken? && HeldBy(s.pcs[c]) == multiset{} && HeldBy(s'.pcs[c]) == multiset{s'.pcs[c].item}
    requires Deque(s, c) == Deque(s', c) + [s'.pcs[c].item] && OneDeque(s, s', c, Deque(s', c))
    ensures Total(s') == Total(s)
  {
    hide Deque, OneDeque, HeldBy, Total, RingOk, PcOk, DrainOk, BookerOk, VictimFits, CoreOk;
    var x := multiset{s'.pcs[c].item};
    assert multiset(Deque(s, c)) == multiset(Deque(s', c)) + x;
    NewestMoves(multiset(Deque(s', c)), x, DrainBag(s.drains[c]), s.hands[c]);
    CoreMoves(s, s', c);
  }

  lemma NewestMoves(d: multiset<Ptr>, x: multiset<Ptr>, w: multiset<Ptr>, h: multiset<Ptr>)
    ensures d + x + w + h == (d + x) + multiset{} + w + h
  {
  }

  /** The booked prefix leaves the victim's deque and is held by the thief. */
  lemma StealSwapsConserves(s: State, c: nat, x: nat, s': State, count: nat)
    requires Inv(s) && Inv(s') && c < |s.qs| == |s'.qs| && x < |s.qs| && x != c && Frame(s, c, s')
    requires s'.lost == s.lost && s'.hands[c] == s.hands[c] && s'.drains[c] == s.drains[c]
    requires count <= |Deque(s, x)| && OneDeque(s, s', x, Deque(s, x)[count..])
    requires HeldBy(s.pcs[c]) == multiset{} && HeldBy(s'.pcs[c]) == multiset(Deque(s, x)[..count])
    ensures Total(s') == Total(s)
  {
    var a, b := multiset(Deque(s, x)[..count]), multiset(Deque(s, x)[count..]);
    OthersBags(s, s', c, x, Deque(s', x));
    SplitBag(Deque(s, x), count);
    MoveBetween(multiset(Deque(s, c)), a, DrainBag(s.drains[c]), s.hands[c],
                b, HeldBy(s.pcs[x]), DrainBag(s.drains[x]), s.hands[x]);
    TwoCores(s, s', c, x);
  }

  lemma MoveBetween(d: multiset<Ptr>, a: multiset<Ptr>, w: multiset<Ptr>, h: multiset<Ptr>,
                    b: multiset<Ptr>, p: multiset<Ptr>, w': multiset<Ptr>, h': multiset<Ptr>)
    ensures (d + a + w + h) + (b + p + w' + h') == (d + multiset{} + w + h) + ((a + b) + p + w' + h')
  {
  }

  lemma DrainSwapsConserves(s: State, c: nat, s': State, count: nat)
    requires Inv(s) && Inv(s') && c < |s.qs| == |s'.qs| && Frame(s, c, s')
    requires s'.lost == s.lost && s'.hands[c] == s.hands[c]
    requires HeldBy(s.pcs[c]) == multiset{} == HeldBy(s'.pcs[c])
    requires count <= |Deque(s, c)| && OneDeque(s, s', c, Deque(s, c)[count..])
    requires DrainBag(s.drains[c]) == multiset{} && DrainBag(s'.drains[c]) == multiset(Deque(s, c)[..count])
    ensures Total(s') == Total(s)
  {
    var a, b := multiset(Deque(s, c)[..count]), multiset(Deque(s, c)[count..]);
    SplitBag(Deque(s, c), count);
    Exchange(a, b, s.hands[c]);
    CoreMoves(s, s', c);
  }

  lemma Exchange(a: multiset<Ptr>, b: multiset<Ptr>, h: multiset<Ptr>)
    ensures b + multiset{} + a + h == (a + b) + multiset{} + multiset{} + h
  {
  }

  lemma DrainReadsConserves(s: State, c: nat, s': State)
    requires Inv(s) && Inv(s') && c < |s.qs| == |s'.qs| && DrainReadsStep(s, c, s') && SameDeques(s, s')
    requires s'.hands[c] == s.hands[c] + multiset{s.drains[c].items[0]}
    ensures Total(s') == Total(s)
  {
    OthersBags(s, s', c, c, Deque(s', c));
    SplitBag(s.drains[c].items, 1);
    assert s.drains[c].items[..1] == [s.drains[c].items[0]];
    OneCore(s, s', c);
  }

  /** Every step of a disciplined, timely run keeps the multiset of all entries. */
  lemma StepConserves(s: State, l: Label, s': State)
    requires Inv(s) && Next(s, l, s')
    ensures Inv(s') && Total(s') == Total(s)
  {
    StepRefines(s, l, s');
    var c := l.core;
    if l.act.Start? {
      StartConserves(s, c, l.act.op, s');
    } else if l.act.Return? {
      ReturnConserves(s, c, s');
    } else if Quiet(l.act) {
      QuietDeques(s, l, s');
      QuietConserves(s, l, s');
    } else if l.act.BookSwaps? {
      BookSwapsConserves(s, l, s');
    } else {
      OtherStepConserves(s, l, s');
    }
  }

  lemma QuietDeques(s: State, l: Label, s': State)
    requires Inv(s) && Inv(s') && |s'.qs| == |s.qs| && l.core < |s.qs| && DequeStep(s, l, s') && Quiet(l.act)
    ensures SameDeques(s, s')
  {
  }

  /** After the booking swap the thief, or the drain, holds the booked entries. */
  lemma BookSwapsHeld(s: State, c: nat, f: nat, s': State)
    requires Shape(s) && c < |s.qs| && BookSwapsStep(s, c, f, s')
    ensures |s'.pcs| == |s.pcs| && |s'.drains| == |s.drains| && HeldBy(s.pcs[c]) == multiset{}
    ensures s.pcs[c].bk.ForSteal? ==>
      s'.pcs[c].Copying? && HeldBy(s'.pcs[c]) == multiset(s'.pcs[c].items) && s'.drains[c] == s.drains[c]
    ensures s.pcs[c].bk.ForDrain? ==>
      s'.drains[c].Live? && HeldBy(s'.pcs[c]) == multiset{} && DrainBag(s'.drains[c]) == multiset(s'.drains[c].items)
  {
  }

  lemma BookSwapsConserves(s: State, l: Label, s': State)
    requires Inv(s) && Inv(s') && Next(s, l, s') && |s'.qs| == |s.qs| && DequeStep(s, l, s') && l.act.BookSwaps?
    ensures Total(s') == Total(s)
  {
    var c := l.core;
    StepFrame(s, c, l.act, s');
    BookSwapsHeld(s, c, l.act.f, s');
    if s.pcs[c].bk.ForSteal? {
      StealSwapsConserve(s, l, s');
    } else {
      NoDrainYet(s, c, l.act.f, s');
      DrainSwapsConserve(s, l, s');
    }
  }

  lemma StealSwapsConserve(s: State, l: Label, s': State)
    requires Inv(s) && Inv(s') && |s'.qs| == |s.qs| && l.core < |s.qs| && DequeStep(s, l, s') && l.act.BookSwaps?
    requires s.pcs[l.core].BookPush? && s.pcs[l.core].bk.ForSteal? && Frame(s, l.core, s')
    requires s'.lost == s.lost && s'.hands[l.core] == s.hands[l.core] && s'.drains[l.core] == s.drains[l.core]
    requires s'.pcs[l.core].Copying? && HeldBy(s'.pcs[l.core]) == multiset(s'.pcs[l.core].items)
    ensures Total(s') == Total(s)
  {
    var pc := s.pcs[l.core];
    assert CoreOk(s, l.core);
    StealSwapsConserves(s, l.core, VictimOf(pc, l.core), s', BookCount(l.act.f, pc.bk, pc.push, pc.pop, pc.booked));
  }

  lemma DrainSwapsConserve(s: State, l: Label, s': State)
    requires Inv(s) && Inv(s') && |s'.qs| == |s.qs| && l.core < |s.qs| && DequeStep(s, l, s') && l.act.BookSwaps?
    requires s.pcs[l.core].BookPush? && s.pcs[l.core].bk.ForDrain? && Frame(s, l.core, s')
    requires s'.lost == s.lost && s'.hands[l.core] == s.hands[l.core] && s.drains[l.core] == NoDrain
    requires s'.drains[l.core].Live? && HeldBy(s'.pcs[l.core]) == multiset{}
    ensures Total(s') == Total(s)
  {
    var pc := s.pcs[l.core];
    DrainSwapsConserves(s, l.core, s', BookCount(l.act.f, pc.bk, pc.push, pc.pop, pc.booked));
  }

  lemma NoDrainYet(s: State, c: nat, f: nat, s': State)
    requires Inv(s) && c < |s.qs| && Timely(s, c) && BookSwapsStep(s, c, f, s') && s.pcs[c].bk.ForDrain?
    ensures s.drains[c] == NoDrain
  {
    LifoSafety.BookSwapsExact(s, c, f, s');
    assert CoreOk(s, c);
  }
  lemma OtherStepConserves(s: State, l: Label, s': State)
    requires Inv(s) && Inv(s') && Next(s, l, s') && |s'.qs| == |s.qs| && DequeStep(s, l, s')
    requires !Quiet(l.act) && !l.act.Start? && !l.act.Return? && !l.act.BookSwaps?
    ensures Total(s') == Total(s)
  {
    var c := l.core;
    match l.act
    case PushStores => PushStoresConserves(s, c, s');
    case ExtendStores => ExtendStoresConserves(s, c, s');
    case PopSwaps => PopSwapsConserves(s, c, s');
    case Publishes => PublishesConserves(s, c, s');
    case DrainReads => DrainReadsConserves(s, c, s');
    case DrainReleases => DrainReleasesConserves(s, c, s');
    case PopReads => PopReadsConserves(s, c, s');
  }
}
