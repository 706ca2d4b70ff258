/** No call hangs: a core that is left alone in the middle of a call ends it, whatever
    the others have done before.  Only an interfering swap can make one go round
    again. */
module LifoProgress {
  import opened Words
  import opened Ring
  import opened LifoMachine
  import opened LifoInvariant
  import opened LifoSafety

  /** The packed word the booking loaded is still the victim's. */
  predicate Fresh(s: State, c: nat)
    requires c < |s.pcs|
  {
    var pc := s.pcs[c];
    && (pc.BookWord? || pc.BookHead? || pc.BookPush?) && From(pc.bk, c) < |s.qs|
    && s.qs[From(pc.bk, c)].pop == pc.pop && s.qs[From(pc.bk, c)].booked == pc.booked
  }

  /** An upper bound on the steps left, should nobody interfere. */
  function StepsLeft(s: State, c: nat): int
    requires c < |s.pcs| == |s.qs|
  {
    var pc, book := s.pcs[c], 2 * s.n + 10;
    match pc
    case Idle => 0
    case Done(_) => 1
    case PushWrote(_, _) => 2
    case PopTaken(_, _) => 2
    case PopLoaded(_, booked, _) => if booked == s.qs[c].booked then 3 else 4
    case PopWord(_, _) => 5
    case Extending(items, k, _, _, _) => 2 + |items| - k
    case LoadedWord(job, _, _, _) => if job.Extend? then 3 + |job.items| else if job.Push? then 3 else book + 10
    case LoadedPush(job, _) => if job.Extend? then 4 + |job.items| else if job.Push? then 4 else book + 11
    case ToBook(_) => book + 5
    case BookWord(_, _, _) => book + 4
    case BookHead(_, _, _, _) => if Fresh(s, c) then book + 1 else book + 3
    case BookPush(_, _, _, _, _) => if Fresh(s, c) then book else book + 2
    case Copying(bk, lo, hi, k, reg, _) => 4 + 2 * (Transfer(bk, hi - lo) - k) - |reg|
    case Publishing(_, _, _, _, _) => 3
    case Releasing(_, _, _) => 2
  }

  /** A step that its own core makes inside a call. */
  predicate Own(a: Act) { !a.Start? && !a.DrainReads? && !a.DrainReleases? }

  /** One step, nearer to the end. */
  ghost predicate Nearer(s: State, c: nat, a: Act, s': State) {
    && Own(a) && Step(s, c, a, s') && c < |s.pcs| == |s.qs| && c < |s'.pcs| == |s'.qs|
    && 0 <= StepsLeft(s', c) < StepsLeft(s, c)
  }

  /** That step is not a swap that fails. */
  predicate GoesOn(a: Act) { !a.PopRetries? && !a.BookRetries? }

  predicate Counts(a: Act) { a.BookNone? || a.BookSwaps? || a.BookRetries? }

  lemma IsShaped(s: State, c: nat)
    requires Inv(s) && c < |s.qs|
    ensures Shape(s)
  {
  }

  lemma PushMoves(s: State, c: nat) returns (a: Act, s': State)
    requires Shape(s) && c < |s.qs| && s.pcs[c].LoadedWord? && s.pcs[c].job.Push?
    ensures Nearer(s, c, a, s') && GoesOn(a) && !Counts(a) && !a.Return?
  {
    var pc := s.pcs[c];
    if Len32(pc.push, pc.pop, pc.booked) >= s.n {
      a, s' := PushRejects, SetPc(s, c, Done(Rejected(pc.job.item)));
    } else {
      a := PushWrites;
      s' := SetPc(SetQ(s, c, WriteAt(s.qs[c], pc.push - pc.pop, pc.job.item)), c, PushWrote(pc.job.item, pc.push));
    }
  }

  lemma LoadMoves(s: State, c: nat) returns (a: Act, s': State)
    requires Shape(s) && c < |s.qs| && (s.pcs[c].LoadedPush? || (s.pcs[c].LoadedWord? && !s.pcs[c].job.Push?))
    ensures Nearer(s, c, a, s') && GoesOn(a) && !Counts(a) && !a.Return?
  {
    var pc, q := s.pcs[c], s.qs[c];
    if pc.LoadedPush? {
      a, s' := LoadWord, SetPc(s, c, LoadedWord(pc.job, pc.push, q.pop, q.booked));
    } else if pc.job.Extend? {
      a, s' := LoadHead, SetPc(s, c, Extending(pc.job.items, 0, pc.push, pc.pop, q.released));
    } else {
      var room := s.n - Len32(pc.push, pc.pop, q.released) + if pc.job.andPop then 1 else 0;
      a := LoadHead;
      s' := SetPc(s, c, ToBook(ForSteal(pc.job.victim, pc.job.andPop, pc.push, pc.push - pc.pop, room)));
    }
  }

  lemma WriteMoves(s: State, c: nat) returns (a: Act, s': State)
    requires Shape(s) && c < |s.qs| && (s.pcs[c].PushWrote? || s.pcs[c].Extending?)
    requires s.pcs[c].Extending? ==> 0 <= s.pcs[c].k <= |s.pcs[c].items|
    ensures Nearer(s, c, a, s') && GoesOn(a) && !Counts(a) && !a.Return?
  {
    var pc, q := s.pcs[c], s.qs[c];
    if pc.PushWrote? {
      a, s' := PushStores, SetPc(SetQ(s, c, q.(push := pc.push + 1)), c, Done(Pushed));
    } else if pc.k < |pc.items| && Low(pc.push - pc.pop + pc.k) != Low(pc.head + s.n) {
      a := ExtendWrites;
      s' := SetPc(SetQ(s, c, WriteAt(q, pc.push - pc.pop + pc.k, pc.items[pc.k])), c,
                  Extending(pc.items, pc.k + 1, pc.push, pc.pop, pc.head));
    } else {
      a := ExtendStores;
      s' := SetPc(SetQ(s, c, q.(push := pc.push - pc.pop + pc.k + pc.pop)), c, Done(Extended(pc.items[pc.k..])));
    }
  }

  lemma PopLoadMoves(s: State, c: nat) returns (a: Act, s': State)
    requires Shape(s) && c < |s.qs| && (s.pcs[c].PopWord? || s.pcs[c].PopTaken?)
    ensures Nearer(s, c, a, s') && GoesOn(a) && !Counts(a) && !a.Return?
  {
    var pc, q := s.pcs[c], s.qs[c];
    if pc.PopWord? {
      a, s' := PopLoads, SetPc(s, c, PopLoaded(pc.pop, pc.booked, q.push));
    } else {
      a, s' := PopReads, SetPc(s, c, Done(Popped(At(q, pc.at))));
    }
  }

  lemma PopMoves(s: State, c: nat) returns (a: Act, s': State)
    requires Shape(s) && c < |s.qs| && s.pcs[c].PopLoaded? && s.pcs[c].pop == s.qs[c].pop
    ensures Nearer(s, c, a, s') && !Counts(a) && !a.Return?
    ensures a.PopRetries? ==> s.qs[c].booked != s.pcs[c].booked
  {
    hide Low, Pack, Tail32, At;
    var pc, q := s.pcs[c], s.qs[c];
    if Tail32(pc.push, pc.pop) == Low(pc.booked) {
      a, s' := PopEmpty, SetPc(s, c, Done(Nothing));
    } else if q.booked == pc.booked {
      a := PopSwaps;
      s' := SetPc(SetQ(s, c, q.(pop := pc.pop + 1, booked := pc.booked)), c,
                  PopTaken(pc.push - pc.pop - 1, At(q, pc.push - pc.pop - 1)));
    } else {
      a, s' := PopRetries, SetPc(s, c, PopLoaded(pc.pop, q.booked, pc.push));
    }
  }

  lemma BookHeadMoves(s: State, c: nat) returns (a: Act, s': State)
    requires Shape(s) && c < |s.qs| && s.pcs[c].BookHead? && From(s.pcs[c].bk, c) < |s.qs|
    ensures Nearer(s, c, a, s') && GoesOn(a) && !Counts(a) && !a.Return?
  {
    hide Low;
    var pc := s.pcs[c];
    var v := s.qs[From(pc.bk, c)];
    if Low(pc.seen) != Low(pc.booked) {
      a, s' := BookBusy, SetPc(s, c, Done(Nothing));
    } else {
      a, s' := BookLoadsPush, SetPc(s, c, BookPush(pc.bk, pc.pop, pc.booked, pc.seen, v.push));
    }
  }

  lemma BookingMoves(s: State, c: nat) returns (a: Act, s': State)
    requires Shape(s) && c < |s.qs| && (s.pcs[c].ToBook? || s.pcs[c].BookWord?) && From(s.pcs[c].bk, c) < |s.qs|
    ensures Nearer(s, c, a, s') && GoesOn(a) && !Counts(a) && !a.Return?
  {
    var pc := s.pcs[c];
    var v := s.qs[From(pc.bk, c)];
    if pc.ToBook? {
      a, s' := BookLoads, SetPc(s, c, BookWord(pc.bk, v.pop, v.booked));
    } else {
      a, s' := BookLoadsHead, SetPc(s, c, BookHead(pc.bk, pc.pop, pc.booked, v.released));
    }
  }

  lemma NoneMoves(s: State, c: nat, f: nat) returns (a: Act, s': State)
    requires Shape(s) && c < |s.qs| && s.pcs[c].BookPush? && From(s.pcs[c].bk, c) < |s.qs|
    requires var pc := s.pcs[c];
      var count := BookCount(f, pc.bk, pc.push, pc.pop, pc.booked); count == 0 || (count > 0 && !Fresh(s, c))
    ensures Nearer(s, c, a, s') && !a.PopRetries? && (a.BookRetries? ==> !Fresh(s, c)) && Counts(a) && a.f == f
  {
    hide BookCount;
    var pc := s.pcs[c];
    var v := s.qs[From(pc.bk, c)];
    if BookCount(f, pc.bk, pc.push, pc.pop, pc.booked) == 0 {
      a, s' := BookNone(f), SetPc(s, c, Done(Nothing));
    } else {
      a, s' := BookRetries(f), SetPc(s, c, BookHead(pc.bk, v.pop, v.booked, pc.seen));
    }
  }

  /** What the swap of a booking leaves. */
  function Swapped(s: State, c: nat, count: int): State
    requires Shape(s) && c < |s.qs| && s.pcs[c].BookPush? && From(s.pcs[c].bk, c) < |s.qs| && count > 0
  {
    var pc := s.pcs[c];
    var x, lo, hi := From(pc.bk, c), pc.booked, pc.booked + count;
    var items := Items(s.qs[x], lo, hi);
    var t := SetQ(s, x, s.qs[x].(pop := pc.pop, booked := hi, booker := if pc.bk.ForDrain? then Drainer else Thief(c)));
    if pc.bk.ForDrain? then SetPc(t, c, Done(Draining)).(drains := s.drains[c := Live(lo, hi, items)])
    else SetPc(t, c, Copying(pc.bk, lo, hi, 0, [], items))
  }

  lemma SwapMoves(s: State, c: nat, f: nat) returns (a: Act, s': State)
    requires Shape(s) && c < |s.qs| && s.pcs[c].BookPush? && Fresh(s, c)
    requires var pc := s.pcs[c];
      var count := BookCount(f, pc.bk, pc.push, pc.pop, pc.booked); 0 < count <= s.n
    ensures Nearer(s, c, a, s') && a == BookSwaps(f)
  {
    hide BookCount, Items, Low, Pack;
    var pc := s.pcs[c];
    a, s' := BookSwaps(f), Swapped(s, c, BookCount(f, pc.bk, pc.push, pc.pop, pc.booked));
  }

  lemma CountFits(s: State, c: nat, f: nat)
    requires Inv(s) && c < |s.qs| && s.pcs[c].BookPush?
    ensures var pc := s.pcs[c];
      var count := BookCount(f, pc.bk, pc.push, pc.pop, pc.booked);
      && From(pc.bk, c) < |s.qs| && 0 <= count && (Fresh(s, c) ==> count <= s.n)
  {
    assert CoreOk(s, c) && CoreOk(s, From(s.pcs[c].bk, c));
    var pc := s.pcs[c];
    if Fresh(s, c) { LenExact(pc.push, pc.pop, pc.booked); }
  }

  lemma ReleaseMoves(s: State, c: nat) returns (a: Act, s': State)
    requires Shape(s) && c < |s.qs| && (s.pcs[c].Releasing? || s.pcs[c].Publishing?)
    requires s.pcs[c].bk.ForSteal? && From(s.pcs[c].bk, c) < |s.qs|
    ensures Nearer(s, c, a, s') && GoesOn(a) && !Counts(a) && !a.Return?
  {
    var pc, q := s.pcs[c], s.qs[c];
    var x := From(pc.bk, c);
    if pc.Releasing? {
      a, s' := Releases, SetPc(SetQ(s, x, s.qs[x].(released := pc.hi, booker := Nobody)), c, Done(pc.result));
    } else {
      var t := Transfer(pc.bk, pc.hi - pc.lo);
      a := Publishes;
      s' := SetPc(SetQ(s, c, q.(push := pc.bk.destPush + t)), c,
                  Releasing(pc.bk, pc.hi, if |pc.last| > 0 then StolePopped(pc.last[0], t) else Stole(t)));
    }
  }

  lemma WriteCopyMoves(s: State, c: nat) returns (a: Act, s': State)
    requires Shape(s) && c < |s.qs| && s.pcs[c].Copying? && s.pcs[c].bk.ForSteal?
    requires var pc := s.pcs[c]; |pc.reg| == 1 && 0 <= pc.k < Transfer(pc.bk, pc.hi - pc.lo)
    ensures Nearer(s, c, a, s') && GoesOn(a) && !Counts(a) && !a.Return?
  {
    hide WriteAt;
    var pc, q := s.pcs[c], s.qs[c];
    a := CopyWrites;
    s' := SetPc(SetQ(s, c, WriteAt(q, pc.bk.destTail + pc.k, pc.reg[0])), c,
                Copying(pc.bk, pc.lo, pc.hi, pc.k + 1, [], pc.items));
  }

  lemma CopyMoves(s: State, c: nat) returns (a: Act, s': State)
    requires Shape(s) && c < |s.qs| && s.pcs[c].Copying? && s.pcs[c].bk.ForSteal? && s.pcs[c].bk.from < |s.qs|
    requires var pc := s.pcs[c]; pc.reg == [] && 0 <= pc.k <= Transfer(pc.bk, pc.hi - pc.lo)
    ensures Nearer(s, c, a, s') && GoesOn(a) && !Counts(a) && !a.Return?
  {
    hide At;
    var pc := s.pcs[c];
    var x := From(pc.bk, c);
    if pc.k < Transfer(pc.bk, pc.hi - pc.lo) {
      a, s' := CopyReads, SetPc(s, c, Copying(pc.bk, pc.lo, pc.hi, pc.k, [At(s.qs[x], pc.lo + pc.k)], pc.items));
    } else {
      a := CopyEnds;
      s' := SetPc(s, c, Publishing(pc.bk, pc.lo, pc.hi,
                  if pc.bk.andPop then [At(s.qs[pc.bk.from], pc.lo + pc.k)] else [], pc.items));
    }
  }

  lemma ReturnMoves(s: State, c: nat) returns (a: Act, s': State)
    requires Shape(s) && c < |s.qs| && s.pcs[c].Done?
    ensures Nearer(s, c, a, s') && a.Return?
  {
    a := Return;
    match s.pcs[c].result
    case Rejected(item) => s' := SetPc(s, c, Idle).(hands := s.hands[c := s.hands[c] + multiset{item}]);
    case Popped(item) => s' := SetPc(s, c, Idle).(hands := s.hands[c := s.hands[c] + multiset{item}]);
    case StolePopped(item, _) => s' := SetPc(s, c, Idle).(hands := s.hands[c := s.hands[c] + multiset{item}]);
    case Extended(left) => s' := SetPc(s, c, Idle).(lost := s.lost + multiset(left));
    case _ => s' := SetPc(s, c, Idle);
  }

  /** What the invariant says of the registers that the steps above go by. */
  lemma RegistersFit(s: State, c: nat)
    requires Inv(s) && c < |s.qs|
    ensures var pc := s.pcs[c];
      && (pc.Extending? ==> 0 <= pc.k <= |pc.items|) && (pc.PopLoaded? ==> pc.pop == s.qs[c].pop)
      && (pc.ToBook? || pc.BookWord? || pc.BookHead? || pc.BookPush? ==> From(pc.bk, c) < |s.qs|)
      && (Holds(pc) ==> pc.bk.ForSteal? && pc.bk.from < |s.qs|)
      && (pc.Copying? ==> var t := Transfer(pc.bk, pc.hi - pc.lo);
            0 <= pc.k <= t && (pc.reg == [] || (|pc.reg| == 1 && pc.k < t)))
  {
    assert CoreOk(s, c);
  }

  /** In the middle of a call a core always has a step to make that brings it nearer
      to the end, if nobody interferes; and its swaps fail only if somebody did.
      `f` is what the caller's count function answers. */
  lemma NoCallIsStuck(s: State, c: nat, f: nat) returns (a: Act, s': State)
    requires Inv(s) && c < |s.qs| && s.pcs[c] != Idle
    ensures Nearer(s, c, a, s')
    ensures a.PopRetries? ==> s.pcs[c].PopLoaded? && s.qs[c].booked != s.pcs[c].booked
    ensures a.BookRetries? ==> !Fresh(s, c)
    ensures (Counts(a) ==> a.f == f) && (a.Return? ==> s.pcs[c].Done?)
  {
    hide Inv, Nearer, Step, StepsLeft, Fresh, BookCount;
    IsShaped(s, c);
    RegistersFit(s, c);
    var pc := s.pcs[c];
    if pc.LoadedWord? && pc.job.Push? { a, s' := PushMoves(s, c); }
    else if pc.LoadedPush? || pc.LoadedWord? { a, s' := LoadMoves(s, c); }
    else if pc.PushWrote? || pc.Extending? { a, s' := WriteMoves(s, c); }
    else if pc.PopWord? || pc.PopTaken? { a, s' := PopLoadMoves(s, c); }
    else if pc.PopLoaded? { a, s' := PopMoves(s, c); }
    else if pc.ToBook? || pc.BookWord? { a, s' := BookingMoves(s, c); }
    else if pc.BookHead? { a, s' := BookHeadMoves(s, c); }
    else if pc.Done? { a, s' := ReturnMoves(s, c); }
    else if pc.Copying? && pc.reg != [] { a, s' := WriteCopyMoves(s, c); }
    else if pc.Copying? { a, s' := CopyMoves(s, c); }
    else if Holds(pc) { a, s' := ReleaseMoves(s, c); }
    else {
      CountFits(s, c, f);
      if Fresh(s, c) && BookCount(f, pc.bk, pc.push, pc.pop, pc.booked) > 0 {
        a, s' := SwapMoves(s, c, f);
      } else {
        a, s' := NoneMoves(s, c, f);
      }
    }
  }

  // ----- a call left alone -----

  /** What a run assumes of the core's schedule and of its client. */
  ghost predicate MayGo(s: State, c: nat)
    requires Shape(s) && c < |s.qs|
  {
    && Timely(s, c)
    && var pc, q := s.pcs[c], s.qs[c];
       (pc.LoadedPush? || pc.LoadedWord?) && pc.job.Push? ==> q.Tail() < q.released + s.n
  }

  predicate Books(a: Act) { a.BookLoads? || a.BookLoadsHead? || a.BookLoadsPush? || a.BookRetries? }

  predicate InBooking(pc: Pc) { pc.BookWord? || pc.BookHead? || pc.BookPush? }

  lemma BookingStaysTimely(s: State, c: nat, a: Act, s': State)
    requires Inv(s) && c < |s.qs| && Step(s, c, a, s') && Books(a) && Timely(s, c)
    ensures Shape(s') && c < |s'.qs| && Timely(s', c) && InBooking(s'.pcs[c])
  {
    assert CoreOk(s, c);
    assert CoreOk(s, From(s.pcs[c].bk, c));
    hide CoreOk, PcOk;
  }

  lemma OthersDoNotBook(s: State, c: nat, a: Act, s': State)
    requires Step(s, c, a, s') && Own(a) && !Books(a)
    ensures c < |s'.pcs| && !InBooking(s'.pcs[c])
  {
  }

  lemma PushRoomStays(s: State, c: nat, a: Act, s': State)
    requires Step(s, c, a, s') && Own(a)
    ensures c < |s.pcs| == |s'.pcs| == |s.qs| == |s'.qs| && s'.n == s.n
    ensures var pc, pc' := s.pcs[c], s'.pcs[c];
      (pc'.LoadedPush? || pc'.LoadedWord?) && pc'.job.Push? ==>
        (pc.LoadedPush? || pc.LoadedWord?) && pc.job.Push? && s'.qs[c] == s.qs[c]
  {
  }

  lemma StaysTimely(s: State, c: nat, a: Act, s': State)
    requires Inv(s) && Inv(s') && c < |s.qs| && Step(s, c, a, s') && Own(a) && MayGo(s, c)
    ensures Shape(s') && c < |s'.qs| && MayGo(s', c)
  {
    PushRoomStays(s, c, a, s');
    IsShaped(s', c);
    hide Inv, Step;
    if Books(a) { BookingStaysTimely(s, c, a, s'); } else { OthersDoNotBook(s, c, a, s'); }
  }

  lemma StepIsNext(s: State, c: nat, a: Act, s': State)
    requires Shape(s) && c < |s.qs| && Step(s, c, a, s') && MayGo(s, c)
    ensures Next(s, Label(c, a), s')
  {
  }

  /** A run of core `c` alone, inside its call. */
  ghost predicate Alone(ss: seq<State>, ls: seq<Label>, c: nat) {
    && |ss| == |ls| + 1
    && forall i {:trigger ls[i]} :: 0 <= i < |ls| ==> Next(ss[i], ls[i], ss[i + 1]) && ls[i].core == c && Own(ls[i].act)
  }

  lemma AloneGrows(s: State, l: Label, ss: seq<State>, ls: seq<Label>, c: nat)
    requires Alone(ss, ls, c) && Next(s, l, ss[0]) && l.core == c && Own(l.act)
    ensures Alone([s] + ss, [l] + ls, c)
  {
    hide Next;
    var ss', ls' := [s] + ss, [l] + ls;
    forall i {:trigger ls'[i]} | 0 <= i < |ls'|
      ensures Next(ss'[i], ls'[i], ss'[i + 1]) && ls'[i].core == c && Own(ls'[i].act)
    {
      if i > 0 { assert ls'[i] == ls[i - 1] && ss'[i] == ss[i - 1] && ss'[i + 1] == ss[i]; }
    }
  }

  /** From any state a core in the middle of a call, if it runs alone, ends that call
      within the bound: with others about, only their swaps can keep it waiting. */
  lemma {:induction false} ACallLeftAloneEnds(s: State, c: nat, f: nat) returns (ss: seq<State>, ls: seq<Label>)
    requires Inv(s) && c < |s.qs| && MayGo(s, c)
    ensures Alone(ss, ls, c) && ss[0] == s
    ensures var t := ss[|ls|]; c < |t.pcs| && t.pcs[c] == Idle
    ensures if s.pcs[c] == Idle then ls == [] else |ls| <= StepsLeft(s, c)
    decreases if s.pcs[c] == Idle then 0 else StepsLeft(s, c)
  {
    hide Inv, Nearer, Step, StepsLeft, MayGo, Next;
    IsShaped(s, c);
    ss, ls := [s], [];
    if s.pcs[c] != Idle {
      var a, s' := NoCallIsStuck(s, c, f);
      NearerMeans(s, c, a, s');
      StepIsNext(s, c, a, s');
      StepKeeps(s, Label(c, a), s');
      StaysTimely(s, c, a, s');
      var ss', ls' := ACallLeftAloneEnds(s', c, f);
      AloneGrows(s, Label(c, a), ss', ls', c);
      ss, ls := [s] + ss', [Label(c, a)] + ls';
    }
  }

  lemma NearerMeans(s: State, c: nat, a: Act, s': State)
    requires Nearer(s, c, a, s')
    ensures Own(a) && Step(s, c, a, s') && c < |s.pcs| == |s.qs| && c < |s'.pcs| == |s'.qs|
    ensures 0 <= StepsLeft(s', c) < StepsLeft(s, c) && (s'.pcs[c] == Idle ==> StepsLeft(s', c) == 0)
  {
  }

  /** A drain can always hand out its next entry, or release its window after the last. */
  lemma NoDrainIsStuck(s: State, c: nat) returns (a: Act, s': State)
    requires Inv(s) && c < |s.qs| && s.drains[c].Live?
    ensures Step(s, c, a, s') && (a.DrainReads? || a.DrainReleases?)
  {
    assert CoreOk(s, c);
    var d := s.drains[c];
    if d.cur < d.end {
      a := DrainReads;
      s' := s.(drains := s.drains[c := Live(d.cur + 1, d.end, d.items[1..])],
               hands := s.hands[c := s.hands[c] + multiset{At(s.qs[c], d.cur)}]);
    } else {
      a := DrainReleases;
      s' := SetQ(s, c, s.qs[c].(released := d.end, booker := Nobody)).(drains := s.drains[c := NoDrain]);
    }
  }
}
