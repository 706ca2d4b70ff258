/** What a refusal tells its caller: a rejected push saw a full deque, a booking
    that found nothing saw an empty one, and a busy one met an open window, each
    at a moment within the call. */
module LifoRefusals {
  import opened Words
  import opened Ring
  import opened LifoMachine
  import opened LifoInvariant
  import opened LifoSafety
  import opened LifoRefinement
  import opened LifoRuns

  lemma RunStep(ss: seq<State>, ls: seq<Label>, i: nat)
    requires IsRun(ss, ls)
    ensures |ss| == |ls| + 1 && Init(ss[0])
    ensures i < |ls| ==> Next(ss[i], ls[i], ss[i + 1])
  {
  }

  /** Other cores, and the drains, leave a core's registers alone. */
  lemma OthersLeave(s: State, l: Label, s': State, c: nat)
    requires Step(s, l.core, l.act, s') && c < |s.pcs| && (l.core != c || l.act.DrainReads? || l.act.DrainReleases?)
    ensures c < |s'.pcs| && s'.pcs[c] == s.pcs[c]
  {
  }

  // ----- a rejected push -----

  lemma LoadsTheWord(s: State, l: Label, s': State, c: nat)
    requires Step(s, l.core, l.act, s') && c < |s'.pcs| && s'.pcs[c].LoadedWord?
    ensures c < |s.pcs| == |s.qs|
    ensures s.pcs[c] == s'.pcs[c] || (l == Label(c, LoadWord) && LoadWordStep(s, c, s'))
  {
    if c < |s.pcs| && l.core == c { WordIsLoadedByLoadWord(s, c, l.act, s'); }
  }

  lemma WordIsLoadedByLoadWord(s: State, c: nat, a: Act, s': State)
    requires Step(s, c, a, s') && s'.pcs[c].LoadedWord?
    ensures a.LoadWord? || s'.pcs[c] == s.pcs[c]
  {
  }

  lemma {:induction false} WordLoaded(ss: seq<State>, ls: seq<Label>, i: nat, c: nat) returns (j: nat)
    requires IsRun(ss, ls) && i < |ss| && c < |ss[i].pcs| && ss[i].pcs[c].LoadedWord?
    ensures j < i && ls[j] == Label(c, LoadWord) && Shape(ss[j]) && c < |ss[j].qs| && LoadWordStep(ss[j], c, ss[j + 1])
    ensures forall k :: j < k <= i ==> c < |ss[k].pcs| && ss[k].pcs[c] == ss[i].pcs[c]
  {
    hide Init, Step, Next, LoadWordStep;
    RunStep(ss, ls, if i > 0 then i - 1 else 0);
    if i == 0 {
      AllIdle(ss[0], c);
    } else {
      IsStep(ss[i - 1], ls[i - 1], ss[i]);
      LoadsTheWord(ss[i - 1], ls[i - 1], ss[i], c);
      if ss[i - 1].pcs[c] == ss[i].pcs[c] {
        j := WordLoaded(ss, ls, i - 1, c);
      } else {
        j := i - 1;
      }
    }
  }

  lemma AllIdle(s: State, c: nat)
    requires Init(s) && c < |s.pcs|
    ensures s.pcs[c] == Idle
  {
  }

  lemma IsStep(s: State, l: Label, s': State)
    requires Next(s, l, s')
    ensures Step(s, l.core, l.act, s') && Timely(s, l.core) && Shape(s) && l.core < |s.qs|
  {
  }

  /** A push is rejected only if its queue held a whole ring of entries when the
      same call loaded the packed word. */
  lemma ARejectedPushSawAFullDeque(ss: seq<State>, ls: seq<Label>, i: nat) returns (j: nat)
    requires IsRun(ss, ls) && i < |ls| && ls[i].act.PushRejects?
    ensures var c := ls[i].core;
      && j < i && ls[j] == Label(c, LoadWord) && Inv(ss[j]) && c < |ss[j].qs| && |Deque(ss[j], c)| == ss[j].n
      && forall k :: j < k <= i ==> c < |ss[k].pcs| && ss[k].pcs[c] == ss[i].pcs[c]
  {
    var c := ls[i].core;
    RunStep(ss, ls, i);
    IsStep(ss[i], ls[i], ss[i + 1]);
    Rejects(ss[i], c, ss[i + 1]);
    j := WordLoaded(ss, ls, i, c);
    RunInv(ss, ls, j);
    SameSize(ss, ls, j, i);
    hide IsRun, Init, Step, Next;
    FullAtLoad(ss[j], c, ss[j + 1], ss[i].pcs[c]);
  }

  lemma Rejects(s: State, c: nat, s': State)
    requires Step(s, c, PushRejects, s')
    ensures c < |s.pcs| && s.pcs[c].LoadedWord? && Len32(s.pcs[c].push, s.pcs[c].pop, s.pcs[c].booked) >= s.n
  {
  }

  lemma FullAtLoad(s: State, c: nat, s': State, pc: Pc)
    requires Inv(s) && c < |s.qs| && LoadWordStep(s, c, s') && |s'.pcs| == |s.pcs| && s'.pcs[c] == pc
    requires pc.LoadedWord? && Len32(pc.push, pc.pop, pc.booked) >= s.n
    ensures |Deque(s, c)| == s.n
  {
    assert CoreOk(s, c);
    LenExact(pc.push, pc.pop, pc.booked);
  }

  lemma {:induction false} SameSize(ss: seq<State>, ls: seq<Label>, j: nat, i: nat)
    requires IsRun(ss, ls) && j <= i < |ss|
    ensures ss[i].n == ss[j].n && |ss[i].pcs| == |ss[j].pcs|
  {
    hide Init, Step, Next;
    if j < i {
      SameSize(ss, ls, j, i - 1);
      RunStep(ss, ls, i - 1);
      IsStep(ss[i - 1], ls[i - 1], ss[i]);
      StepSize(ss[i - 1], ls[i - 1], ss[i]);
    }
  }

  lemma StepSize(s: State, l: Label, s': State)
    requires Step(s, l.core, l.act, s')
    ensures s'.n == s.n && |s'.pcs| == |s.pcs|
  {
  }

  // ----- bookings -----

  /** Between the word load of a booking and its end. */
  predicate InBooking(pc: Pc, bk: Booking) { (pc.BookWord? || pc.BookHead? || pc.BookPush?) && pc.bk == bk }

  /** How a step gets a core into these registers. */
  predicate Entered(s: State, c: nat, a: Act, pc: Pc)
    requires Shape(s) && c < |s.qs|
  {
    var was := s.pcs[c];
    pc == was ||
    match pc
    case BookWord(bk, pop, booked) => From(bk, c) < |s.qs| && booked == s.qs[From(bk, c)].booked
    case BookHead(bk, pop, booked, seen) =>
      From(bk, c) < |s.qs| &&
      var v := s.qs[From(bk, c)];
      || (a.BookLoadsHead? && was == BookWord(bk, pop, booked) && seen == v.released)
      || (a.BookRetries? && was.BookPush? && was.bk == bk && was.seen == seen && booked == v.booked)
    case BookPush(bk, pop, booked, seen, push) =>
      && From(bk, c) < |s.qs| && a.BookLoadsPush?
      && was == BookHead(bk, pop, booked, seen) && push == s.qs[From(bk, c)].push
    case _ => true
  }

  lemma StepEnters(s: State, c: nat, a: Act, s': State)
    requires Step(s, c, a, s') && c < |s'.pcs|
    ensures Shape(s) && c < |s.qs| && Entered(s, c, a, s'.pcs[c])
  {
  }

  lemma Enters(s: State, l: Label, s': State, c: nat)
    requires Step(s, l.core, l.act, s') && c < |s'.pcs|
    ensures Shape(s) && c < |s.qs|
    ensures s'.pcs[c] == s.pcs[c] || (l.core == c && Entered(s, c, l.act, s'.pcs[c]))
  {
    StepSize(s, l, s');
    if l.core == c { StepEnters(s, c, l.act, s'); } else { OthersLeave(s, l, s', c); }
  }

  ghost predicate During(ss: seq<State>, c: nat, k: nat, i: nat, bk: Booking) {
    k <= i < |ss| && forall m :: k < m <= i ==> c < |ss[m].pcs| && InBooking(ss[m].pcs[c], bk)
  }

  /** The booked head in the registers was loaded at some moment `k` of the call. */
  lemma {:induction false} HeadWordLoaded(ss: seq<State>, ls: seq<Label>, i: nat, c: nat, bk: Booking) returns (k: nat)
    requires IsRun(ss, ls) && i < |ss| && c < |ss[i].pcs| && InBooking(ss[i].pcs[c], bk)
    ensures k < i && During(ss, c, k, i, bk) && From(bk, c) < |ss[k].qs|
    ensures ss[k].qs[From(bk, c)].booked == ss[i].pcs[c].booked
  {
    hide Init, Step, Next;
    RunStep(ss, ls, if i > 0 then i - 1 else 0);
    if i == 0 {
      AllIdle(ss[0], c);
    } else {
      IsStep(ss[i - 1], ls[i - 1], ss[i]);
      Enters(ss[i - 1], ls[i - 1], ss[i], c);
      var was := ss[i - 1].pcs[c];
      if InBooking(was, bk) && was.booked == ss[i].pcs[c].booked {
        k := HeadWordLoaded(ss, ls, i - 1, c, bk);
      } else {
        k := i - 1;
      }
    }
  }

  /** So was the released head, once and for all retries. */
  lemma {:induction false} SeenLoaded(ss: seq<State>, ls: seq<Label>, i: nat, c: nat, bk: Booking) returns (k: nat)
    requires IsRun(ss, ls) && i < |ss| && c < |ss[i].pcs| && InBooking(ss[i].pcs[c], bk) && !ss[i].pcs[c].BookWord?
    ensures k < i && During(ss, c, k, i, bk) && From(bk, c) < |ss[k].qs|
    ensures ss[k].qs[From(bk, c)].released == ss[i].pcs[c].seen
  {
    hide Init, Step, Next;
    RunStep(ss, ls, if i > 0 then i - 1 else 0);
    if i == 0 {
      AllIdle(ss[0], c);
    } else {
      IsStep(ss[i - 1], ls[i - 1], ss[i]);
      Enters(ss[i - 1], ls[i - 1], ss[i], c);
      if ss[i - 1].pcs[c].BookWord? { k := i - 1; } else { k := SeenLoaded(ss, ls, i - 1, c, bk); }
    }
  }

  predicate Open(q: Ring) { q.released < q.booked }

  /** A ring that is unbooked before and after a step has not been booked by it. */
  lemma StaysClosed(s: State, l: Label, s': State, x: nat)
    requires Inv(s) && Next(s, l, s') && x < |s.qs| && !Open(s.qs[x])
    ensures x < |s'.qs| && (!Open(s'.qs[x]) ==> s'.qs[x].booked == s.qs[x].booked == s'.qs[x].released)
  {
    StepKeeps(s, l, s');
    SameCores(s, l, s');
    assert CoreOk(s, x) && CoreOk(s', x);
    BookedMoves(s, l, s', x);
  }

  lemma BookedMoves(s: State, l: Label, s': State, x: nat)
    requires Inv(s) && Next(s, l, s') && x < |s.qs| == |s'.qs|
    ensures s'.qs[x].booked == s.qs[x].booked || s'.qs[x].released == s.qs[x].released
    ensures l.act.BookSwaps? || s'.qs[x].booked == s.qs[x].booked
  {
    if l.act.PopSwaps? { PopSwapsExact(s, l.core, s'); }
  }

  lemma {:induction false} ClosedStands(ss: seq<State>, ls: seq<Label>, a: nat, b: nat, x: nat)
    requires IsRun(ss, ls) && a <= b < |ss| && x < |ss[a].qs|
    requires forall k :: a <= k <= b && x < |ss[k].qs| ==> !Open(ss[k].qs[x])
    ensures x < |ss[b].qs| && ss[b].qs[x].booked == ss[a].qs[x].booked
    ensures Inv(ss[a]) && Inv(ss[b])
  {
    hide Init, Step, Next, Inv;
    RunInv(ss, ls, a);
    if a < b {
      ClosedStands(ss, ls, a, b - 1, x);
      RunStep(ss, ls, b - 1);
      RunInv(ss, ls, b);
      StaysClosed(ss[b - 1], ls[b - 1], ss[b], x);
    }
  }

  /** A booking is refused as busy only if its ring had an open window at some
      moment of the call. */
  lemma ABusyBookingMetAnOpenWindow(ss: seq<State>, ls: seq<Label>, i: nat) returns (k: nat)
    requires IsRun(ss, ls) && i < |ls| && ls[i].act.BookBusy?
    ensures var c := ls[i].core;
      && k < i && c < |ss[i].pcs| && ss[i].pcs[c].BookHead? && During(ss, c, k, i, ss[i].pcs[c].bk)
      && From(ss[i].pcs[c].bk, c) < |ss[k].qs| && Open(ss[k].qs[From(ss[i].pcs[c].bk, c)])
  {
    var c := ls[i].core;
    RunStep(ss, ls, i);
    IsStep(ss[i], ls[i], ss[i + 1]);
    IsBusy(ss[i], c, ss[i + 1]);
    hide IsRun, Init, Step, Next;
    var bk := ss[i].pcs[c].bk;
    var x := From(bk, c);
    var w := HeadWordLoaded(ss, ls, i, c, bk);
    var h := SeenLoaded(ss, ls, i, c, bk);
    var a, b := if w < h then w else h, if w < h then h else w;
    if forall m :: a <= m <= b && x < |ss[m].qs| ==> !Open(ss[m].qs[x]) {
      ClosedStands(ss, ls, a, b, x);
      RunInv(ss, ls, h);
      Heads(ss[h], x);
      assert false;
    } else {
      k :| a <= k <= b && x < |ss[k].qs| && Open(ss[k].qs[x]);
    }
  }

  lemma Heads(s: State, x: nat)
    requires Inv(s) && x < |s.qs|
    ensures s.qs[x].released <= s.qs[x].booked
  {
    assert CoreOk(s, x);
  }

  lemma IsBusy(s: State, c: nat, s': State)
    requires Step(s, c, BookBusy, s')
    ensures c < |s.pcs| && s.pcs[c].BookHead? && s.pcs[c].seen != s.pcs[c].booked
  {
  }

  lemma {:induction false} PushLoaded(ss: seq<State>, ls: seq<Label>, i: nat, c: nat) returns (j: nat)
    requires IsRun(ss, ls) && i < |ss| && c < |ss[i].pcs| && ss[i].pcs[c].BookPush?
    ensures j < i && ls[j] == Label(c, BookLoadsPush) && Next(ss[j], ls[j], ss[j + 1])
    ensures forall k :: j < k <= i ==> c < |ss[k].pcs| && ss[k].pcs[c] == ss[i].pcs[c]
  {
    hide Init, Step, Next;
    RunStep(ss, ls, if i > 0 then i - 1 else 0);
    if i == 0 {
      AllIdle(ss[0], c);
    } else {
      IsStep(ss[i - 1], ls[i - 1], ss[i]);
      Enters(ss[i - 1], ls[i - 1], ss[i], c);
      if ss[i - 1].pcs[c] == ss[i].pcs[c] { j := PushLoaded(ss, ls, i - 1, c); } else { j := i - 1; }
    }
  }

  /** A booking that was allowed an entry takes none only if its ring was empty when
      the same call loaded the push count; or else as many as 2^32 entries, with
      those still there, have left the ring since the call loaded the packed word. */
  lemma ABookingOfNothingSawAnEmptyDeque(ss: seq<State>, ls: seq<Label>, i: nat) returns (j: nat)
    requires IsRun(ss, ls) && i < |ls| && ls[i].act.BookNone? && ls[i].act.f > 0
    requires ls[i].core < |ss[i].pcs| && ss[i].pcs[ls[i].core].BookPush? && MaxCount(ss[i].pcs[ls[i].core].bk) > 0
    ensures var c, pc := ls[i].core, ss[i].pcs[ls[i].core];
      var x := From(pc.bk, c);
      && j < i && ls[j] == Label(c, BookLoadsPush) && Inv(ss[j]) && x < |ss[j].qs|
      && (Deque(ss[j], x) == []
          || ss[j].qs[x].pop - pc.pop + ss[j].qs[x].booked - pc.booked + |Deque(ss[j], x)| >= WORD)
      && forall k :: j < k <= i ==> c < |ss[k].pcs| && ss[k].pcs[c] == pc
  {
    var c := ls[i].core;
    RunStep(ss, ls, i);
    IsStep(ss[i], ls[i], ss[i + 1]);
    IsNone(ss[i], c, ls[i].act.f, ss[i + 1]);
    j := PushLoaded(ss, ls, i, c);
    RunInv(ss, ls, j);
    hide IsRun, Init, Step;
    EmptyAtLoad(ss[j], c, ss[j + 1], ss[i].pcs[c]);
  }

  lemma IsNone(s: State, c: nat, f: nat, s': State)
    requires Step(s, c, BookNone(f), s')
    ensures c < |s.pcs| && s.pcs[c].BookPush?
    ensures var pc := s.pcs[c]; BookCount(f, pc.bk, pc.push, pc.pop, pc.booked) == 0
  {
  }

  lemma EmptyAtLoad(s: State, c: nat, s': State, pc: Pc)
    requires Inv(s) && Next(s, Label(c, BookLoadsPush), s') && c < |s'.pcs| && s'.pcs[c] == pc
    requires pc.BookPush? && Len32(pc.push, pc.pop, pc.booked) == 0
    ensures var x := From(pc.bk, c);
      && x < |s.qs|
      && (Deque(s, x) == [] || s.qs[x].pop - pc.pop + s.qs[x].booked - pc.booked + |Deque(s, x)| >= WORD)
  {
    assert CoreOk(s, c) && CoreOk(s, From(pc.bk, c));
    var v := s.qs[From(pc.bk, c)];
    if v.pop - pc.pop + v.booked - pc.booked + (v.Tail() - v.booked) < WORD {
      LenExact(pc.push, pc.pop, pc.booked);
    }
  }
}
