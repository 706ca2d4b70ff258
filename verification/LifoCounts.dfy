/** How much a call moves: a booking takes all it was asked for, as far as its limit
    and the published entries go, and an `extend` stops early on a full ring only. */
module LifoCounts {
  import opened Words
  import opened Ring
  import opened LifoMachine
  import opened LifoInvariant
  import opened LifoSafety
  import opened LifoRefinement
  import opened LifoRuns
  import opened LifoRefusals

  // ----- the count of a booking -----

  /** A successful booking swap: the entries it may take are those published before
      its call loaded the push count. */
  lemma SwapTakesExactly(s: State, c: nat, f: nat, s': State)
    requires Inv(s) && Step(s, c, BookSwaps(f), s') && Timely(s, c)
    ensures c < |s.pcs| && s.pcs[c].BookPush?
    ensures var pc := s.pcs[c]; var x := From(pc.bk, c);
      && x < |s.qs| == |s'.qs|
      && var count, limit, there := s'.qs[x].booked - s.qs[x].booked,
           if pc.bk.ForSteal? then pc.bk.max else 0xffff_ffff, |Deque(s, x)| - (s.qs[x].push - pc.push);
         && 0 < count <= f && count <= limit && count <= there
         && (count == f || count == limit || count == there)
  {
    BookSwapsExact(s, c, f, s');
    var pc := s.pcs[c];
    assert CoreOk(s, c) && CoreOk(s, From(pc.bk, c));
    LenExact(pc.push, pc.pop, pc.booked);
  }

  lemma LoadsPush(s: State, c: nat, s': State)
    requires Step(s, c, BookLoadsPush, s')
    ensures c < |s'.pcs| == |s.qs| && s'.pcs[c].BookPush?
    ensures var x := From(s'.pcs[c].bk, c); x < |s.qs| && s'.pcs[c].push == s.qs[x].push
  {
  }

  /** Every booking of a run takes exactly as many entries as its caller asked for,
      or its limit, or what was published when the same call loaded the push count
      and is still there: the least of the three. */
  lemma ABookingTakesExactly(ss: seq<State>, ls: seq<Label>, i: nat) returns (j: nat)
    requires IsRun(ss, ls) && i < |ls| && ls[i].act.BookSwaps?
    ensures var c := ls[i].core;
      && c < |ss[i].pcs| && ss[i].pcs[c].BookPush? && Inv(ss[i])
      && var pc := ss[i].pcs[c]; var x := From(pc.bk, c);
      && j < i && ls[j] == Label(c, BookLoadsPush)
      && (forall k :: j < k <= i ==> c < |ss[k].pcs| && ss[k].pcs[c] == pc)
      && x < |ss[j].qs| && x < |ss[i].qs| == |ss[i + 1].qs|
      && var f, limit := ls[i].act.f, if pc.bk.ForSteal? then pc.bk.max else 0xffff_ffff;
         var there := |Deque(ss[i], x)| - (ss[i].qs[x].push - ss[j].qs[x].push);
         var count := ss[i + 1].qs[x].booked - ss[i].qs[x].booked;
         && 0 < count <= f && count <= limit && count <= there
         && (count == f || count == limit || count == there)
  {
    var c, f := ls[i].core, ls[i].act.f;
    RunStep(ss, ls, i);
    RunInv(ss, ls, i);
    IsStep(ss[i], ls[i], ss[i + 1]);
    hide Step, Init;
    SwapTakesExactly(ss[i], c, f, ss[i + 1]);
    j := PushLoaded(ss, ls, i, c);
    IsStep(ss[j], ls[j], ss[j + 1]);
    hide IsRun, Next;
    LoadsPush(ss[j], c, ss[j + 1]);
  }

  // ----- the room of a steal -----

  /** Between the load of the destination's released head and the end of a booking. */
  predicate WithRoom(pc: Pc, bk: Booking) {
    (pc.ToBook? || pc.BookWord? || pc.BookHead? || pc.BookPush?) && pc.bk == bk
  }

  predicate Books(a: Act) { a.BookLoads? || a.BookLoadsHead? || a.BookLoadsPush? || a.BookRetries? }

  lemma BookingKeepsRoom(s: State, c: nat, a: Act, s': State, bk: Booking)
    requires Step(s, c, a, s') && (Books(a) || a.DrainReads? || a.DrainReleases?)
    requires c < |s'.pcs| && WithRoom(s'.pcs[c], bk)
    ensures c < |s.pcs| && WithRoom(s.pcs[c], bk)
  {
  }

  lemma OthersGiveNoRoom(s: State, c: nat, a: Act, s': State, bk: Booking)
    requires Step(s, c, a, s') && !Books(a) && !a.DrainReads? && !a.DrainReleases? && !a.LoadHead? && bk.ForSteal?
    ensures c < |s'.pcs| ==> !WithRoom(s'.pcs[c], bk)
  {
  }

  /** One way into it: by that load. */
  lemma RoomIsLoaded(s: State, c: nat, a: Act, s': State, bk: Booking)
    requires Step(s, c, a, s') && c < |s'.pcs| && bk.ForSteal? && WithRoom(s'.pcs[c], bk)
    ensures c < |s.pcs| == |s.qs| && (WithRoom(s.pcs[c], bk) || (a == LoadHead && LoadHeadStep(s, c, s')))
  {
    IsShaped(s, c, a, s');
    if !a.LoadHead? {
      hide Step, WithRoom;
      if Books(a) || a.DrainReads? || a.DrainReleases? {
        BookingKeepsRoom(s, c, a, s', bk);
      } else {
        OthersGiveNoRoom(s, c, a, s', bk);
      }
    }
  }

  lemma IsShaped(s: State, c: nat, a: Act, s': State)
    requires Step(s, c, a, s')
    ensures c < |s.pcs| == |s.qs|
  {
  }

  lemma RoomStays(s: State, l: Label, s': State, c: nat, bk: Booking)
    requires Step(s, l.core, l.act, s') && c < |s'.pcs| && bk.ForSteal? && WithRoom(s'.pcs[c], bk)
    ensures c < |s.pcs| == |s.qs| && Shape(s)
    ensures WithRoom(s.pcs[c], bk) || (l == Label(c, LoadHead) && LoadHeadStep(s, c, s'))
  {
    StepSize(s, l, s');
    hide Step, LoadHeadStep;
    if l.core == c { RoomIsLoaded(s, c, l.act, s', bk); } else { OthersLeave(s, l, s', c); }
  }

  lemma RoomIsFree(s: State, c: nat, s': State, bk: Booking)
    requires Inv(s) && c < |s.qs| && LoadHeadStep(s, c, s') && c < |s'.pcs| && bk.ForSteal? && WithRoom(s'.pcs[c], bk)
    ensures var own := s.qs[c];
      bk.max == s.n - (own.Tail() - own.released) + if bk.andPop then 1 else 0
  {
    assert CoreOk(s, c);
    var pc := s.pcs[c];
    LenExact(pc.push, pc.pop, s.qs[c].released);
  }

  /** The limit of a steal is the room below the released head that its own ring had
      at one moment of the same call, and one more for the entry handed out. */
  lemma {:induction false} ALimitIsTheRoomOnce(ss: seq<State>, ls: seq<Label>, i: nat, c: nat, bk: Booking)
    returns (h: nat)
    requires IsRun(ss, ls) && i < |ss| && c < |ss[i].pcs| && bk.ForSteal? && WithRoom(ss[i].pcs[c], bk)
    ensures h < i && ls[h] == Label(c, LoadHead) && c < |ss[h].qs|
    ensures forall k :: h < k <= i ==> c < |ss[k].pcs| && WithRoom(ss[k].pcs[c], bk)
    ensures var own := ss[h].qs[c];
      bk.max == ss[h].n - (own.Tail() - own.released) + if bk.andPop then 1 else 0
  {
    hide Init, Step, Next, WithRoom, LoadHeadStep;
    RunStep(ss, ls, if i > 0 then i - 1 else 0);
    if i == 0 {
      AllIdle(ss[0], c);
      IdleHasNoRoom(ss[0].pcs[c], bk);
    } else {
      IsStep(ss[i - 1], ls[i - 1], ss[i]);
      RoomStays(ss[i - 1], ls[i - 1], ss[i], c, bk);
      if WithRoom(ss[i - 1].pcs[c], bk) {
        h := ALimitIsTheRoomOnce(ss, ls, i - 1, c, bk);
      } else {
        h := i - 1;
        RunInv(ss, ls, h);
        RoomIsFree(ss[h], c, ss[i], bk);
      }
    }
  }

  lemma IdleHasNoRoom(pc: Pc, bk: Booking)
    requires pc == Idle
    ensures !WithRoom(pc, bk)
  {
  }

  // ----- the end of an extend -----

  lemma HeadIsLoaded(s: State, c: nat, a: Act, s': State)
    requires Step(s, c, a, s') && c < |s'.pcs| && s'.pcs[c].Extending?
    ensures c < |s.pcs| == |s.qs|
    ensures var pc' := s'.pcs[c];
      || (s.pcs[c].Extending? && s.pcs[c].head == pc'.head)
      || (a == LoadHead && pc'.head == s.qs[c].released)
  {
  }

  lemma HeadStays(s: State, l: Label, s': State, c: nat)
    requires Step(s, l.core, l.act, s') && c < |s'.pcs| && s'.pcs[c].Extending?
    ensures c < |s.pcs| == |s.qs|
    ensures var pc' := s'.pcs[c];
      || (s.pcs[c].Extending? && s.pcs[c].head == pc'.head)
      || (l == Label(c, LoadHead) && pc'.head == s.qs[c].released)
  {
    StepSize(s, l, s');
    IsShaped(s, l.core, l.act, s');
    hide Step;
    if l.core == c { HeadIsLoaded(s, c, l.act, s'); } else { OthersLeave(s, l, s', c); }
  }

  lemma {:induction false} HeadLoaded(ss: seq<State>, ls: seq<Label>, i: nat, c: nat) returns (h: nat)
    requires IsRun(ss, ls) && i < |ss| && c < |ss[i].pcs| && ss[i].pcs[c].Extending?
    ensures h < i && ls[h] == Label(c, LoadHead) && c < |ss[h].qs| && ss[h].qs[c].released == ss[i].pcs[c].head
    ensures forall k :: h < k <= i ==> c < |ss[k].pcs| && ss[k].pcs[c].Extending?
  {
    hide Init, Step, Next;
    RunStep(ss, ls, if i > 0 then i - 1 else 0);
    if i == 0 {
      AllIdle(ss[0], c);
    } else {
      IsStep(ss[i - 1], ls[i - 1], ss[i]);
      HeadStays(ss[i - 1], ls[i - 1], ss[i], c);
      if ss[i - 1].pcs[c].Extending? && ss[i - 1].pcs[c].head == ss[i].pcs[c].head {
        h := HeadLoaded(ss, ls, i - 1, c);
      } else {
        h := i - 1;
      }
    }
  }

  lemma StopsAtTheHead(s: State, c: nat, s': State)
    requires Inv(s) && Step(s, c, ExtendStores, s')
    ensures c < |s.pcs| == |s.qs| && s.pcs[c].Extending? && 0 <= s.pcs[c].k <= |s.pcs[c].items|
    ensures var pc := s.pcs[c]; pc.k < |pc.items| ==> s.qs[c].Tail() + pc.k == pc.head + s.n
  {
    assert CoreOk(s, c);
    var pc := s.pcs[c];
    LowExact(pc.push - pc.pop + pc.k, pc.head + s.n);
  }

  /** An `extend` ends with its items, or with the ring full as of the released head
      that the same call loaded; only then are items dropped. */
  lemma AnExtendStopsEarlyOnAFullRing(ss: seq<State>, ls: seq<Label>, i: nat) returns (h: nat)
    requires IsRun(ss, ls) && i < |ls| && ls[i].act.ExtendStores?
    ensures var c := ls[i].core;
      && c < |ss[i].pcs| == |ss[i].qs| && ss[i].pcs[c].Extending? && 0 <= ss[i].pcs[c].k <= |ss[i].pcs[c].items|
      && h < i && ls[h] == Label(c, LoadHead) && c < |ss[h].qs|
      && (forall m :: h < m <= i ==> c < |ss[m].pcs| && ss[m].pcs[c].Extending?)
      && var pc := ss[i].pcs[c];
         (pc.k < |pc.items| ==> ss[i].qs[c].Tail() + pc.k == ss[h].qs[c].released + ss[i].n)
  {
    var c := ls[i].core;
    RunStep(ss, ls, i);
    RunInv(ss, ls, i);
    IsStep(ss[i], ls[i], ss[i + 1]);
    hide IsRun, Init, Step, Next;
    StopsAtTheHead(ss[i], c, ss[i + 1]);
    h := HeadLoaded(ss, ls, i, c);
  }
}
