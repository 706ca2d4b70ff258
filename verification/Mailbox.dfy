/** The multi-core signal: a slot behind a lock, and a flag outside it.  First the
    calls as they are, then any number of callers interleaved step by step. */
module Mailbox {
  import opened Options

  /** Calls that run one after the other. */
  class MultiCoreSignal<T> {
    var data: Option<T>
    var hasData: bool

    ghost predicate Valid()
      reads this
    {
      hasData == data.Some?
    }

    constructor ()
      ensures Valid() && data == None
    {
      data, hasData := None, false;
    }

    /** The last write wins. */
    method Signal(x: T)
      requires Valid()
      modifies this
      ensures Valid() && data == Some(x)
    {
      data := Some(x);
      hasData := true;
    }

    method Reset()
      modifies this
      ensures Valid() && data == None
    {
      hasData := false;
      data := None;
    }

    /** Delivers what is there, once. */
    method Poll() returns (r: Option<T>)
      requires Valid()
      modifies this
      ensures Valid() && r == old(data) && data == None
    {
      if !hasData { return None; }
      r := data;
      data := None;
      if r.Some? { hasData := false; }
    }
  }

  // ----- calls interleaved -----

  /** `Wrote` has filled the slot and is to raise the flag; `Lowered` is a reset that
      has lowered the flag and is to empty the slot; `Saw` is a poll that saw the
      flag; `Took` and `Cleared` hold the lock and the deposit they took. */
  datatype Ctl = Idle | Wrote | Lowered | Saw | Took(x: nat) | Cleared(x: nat)

  /** Deposits are numbered as they are written.  The three logs say what became
      of those that are no longer on their way. */
  datatype State = State(
    ctl: seq<Ctl>,
    lock: Option<nat>,
    slot: Option<nat>,
    flag: bool,
    next: nat,
    delivered: seq<nat>,
    overwritten: seq<nat>,
    wiped: seq<nat>)

  datatype Act =
    | Write(p: nat) | Raise(p: nat)
    | Lower(p: nat) | Wipe(p: nat)
    | See(p: nat) | Take(p: nat) | Clear(p: nat) | Release(p: nat)

  predicate Init(s: State) {
    && (forall p :: 0 <= p < |s.ctl| ==> s.ctl[p] == Idle)
    && s == State(s.ctl, None, None, false, 0, [], [], [])
  }

  predicate Enabled(s: State, a: Act) {
    a.p < |s.ctl| &&
    match a
    case Write(p) => s.ctl[p].Idle? && s.lock.None?
    case Raise(p) => s.ctl[p].Wrote?
    case Lower(p) => s.ctl[p].Idle?
    case Wipe(p) => s.ctl[p].Lowered? && s.lock.None?
    case See(p) => s.ctl[p].Idle?
    case Take(p) => s.ctl[p].Saw? && s.lock.None?
    case Clear(p) => s.ctl[p].Took?
    case Release(p) => s.ctl[p].Cleared?
  }

  function Items(slot: Option<nat>): seq<nat> {
    if slot.Some? then [slot.value] else []
  }

  /** A poll that finds the slot empty lets the lock go at once. */
  function Next(s: State, a: Act): State
    requires Enabled(s, a)
  {
    match a
    case Write(p) =>
      s.(ctl := s.ctl[p := Wrote], slot := Some(s.next), next := s.next + 1,
         overwritten := s.overwritten + Items(s.slot))
    case Raise(p) => s.(ctl := s.ctl[p := Idle], flag := true)
    case Lower(p) => s.(ctl := s.ctl[p := Lowered], flag := false)
    case Wipe(p) => s.(ctl := s.ctl[p := Idle], slot := None, wiped := s.wiped + Items(s.slot))
    case See(p) => if s.flag then s.(ctl := s.ctl[p := Saw]) else s
    case Take(p) =>
      if s.slot.None? then s.(ctl := s.ctl[p := Idle])
      else s.(ctl := s.ctl[p := Took(s.slot.value)], lock := Some(p), slot := None)
    case Clear(p) => s.(ctl := s.ctl[p := Cleared(s.ctl[p].x)], flag := false)
    case Release(p) => s.(ctl := s.ctl[p := Idle], lock := None, delivered := s.delivered + [s.ctl[p].x])
  }

  predicate Holds(c: Ctl) { c.Took? || c.Cleared? }

  /** Exactly the owner of the lock holds a deposit, and then the slot is empty. */
  predicate LockOk(s: State) {
    && (forall p :: 0 <= p < |s.ctl| && Holds(s.ctl[p]) ==> s.lock == Some(p))
    && (s.lock.Some? ==> s.lock.value < |s.ctl| && Holds(s.ctl[s.lock.value]) && s.slot.None?)
  }

  predicate AnyIn(s: State, c: Ctl) {
    exists p :: 0 <= p < |s.ctl| && s.ctl[p] == c
  }

  /** A filled slot can be seen, or is about to be, or is about to be wiped. */
  predicate NotHidden(s: State) {
    s.slot.Some? ==> s.flag || AnyIn(s, Wrote) || AnyIn(s, Lowered)
  }

  function InHand(s: State): seq<nat>
    requires LockOk(s)
  {
    if s.lock.Some? then [s.ctl[s.lock.value].x] else []
  }

  /** What is on its way: in a hand or in the slot, never both. */
  function Transit(s: State): seq<nat>
    requires LockOk(s)
  {
    InHand(s) + Items(s.slot)
  }

  function Upto(n: nat): multiset<nat> {
    if n == 0 then multiset{} else Upto(n - 1) + multiset{n - 1}
  }

  /** Every deposit so far is in exactly one place. */
  predicate Conserved(s: State)
    requires LockOk(s)
  {
    Upto(s.next) == multiset(s.delivered) + multiset(s.overwritten) + multiset(s.wiped) + multiset(Transit(s))
  }

  predicate Rising(xs: seq<nat>) {
    forall i, j :: 0 <= i < j < |xs| ==> xs[i] < xs[j]
  }

  /** Only the newest deposit can be in the slot, and deliveries keep the order. */
  predicate Ordered(s: State)
    requires LockOk(s)
  {
    && (s.slot.Some? ==> s.slot.value + 1 == s.next)
    && Rising(s.delivered + Transit(s))
    && forall x :: x in s.delivered + Transit(s) ==> x < s.next
  }

  predicate Inv(s: State) {
    LockOk(s) && NotHidden(s) && Conserved(s) && Ordered(s)
  }

  lemma InitInv(s: State)
    requires Init(s)
    ensures Inv(s)
  {
  }

  lemma StepLock(s: State, a: Act)
    requires LockOk(s) && Enabled(s, a)
    ensures LockOk(Next(s, a))
  {
  }

  lemma StepNotHidden(s: State, a: Act)
    requires LockOk(s) && NotHidden(s) && Enabled(s, a)
    ensures NotHidden(Next(s, a))
  {
    var t := Next(s, a);
    if t.slot.Some? && !t.flag {
      if a.Write? || a.Lower? {
        assert t.ctl[a.p] == if a.Write? then Wrote else Lowered;
      } else if AnyIn(s, Wrote) {
        var p :| 0 <= p < |s.ctl| && s.ctl[p] == Wrote;
        assert t.ctl[p] == Wrote;
      } else if AnyIn(s, Lowered) {
        var p :| 0 <= p < |s.ctl| && s.ctl[p] == Lowered;
        assert t.ctl[p] == Lowered;
      }
    }
  }

  /** How a step moves deposits between the logs and the way. */
  lemma StepMoves(s: State, a: Act)
    requires LockOk(s) && Enabled(s, a)
    ensures LockOk(Next(s, a))
    ensures var t := Next(s, a);
      && |Transit(s)| <= 1
      && match a {
        case Write(_) =>
          && s.lock.None? && t.next == s.next + 1 && Transit(t) == [s.next]
          && t.overwritten == s.overwritten + Transit(s) && t.delivered == s.delivered && t.wiped == s.wiped
        case Wipe(_) =>
          && s.lock.None? && t.next == s.next && Transit(t) == []
          && t.overwritten == s.overwritten && t.delivered == s.delivered && t.wiped == s.wiped + Transit(s)
        case Release(_) =>
          && t.next == s.next && Transit(t) == []
          && t.overwritten == s.overwritten && t.delivered == s.delivered + Transit(s) && t.wiped == s.wiped
        case _ =>
          && t.next == s.next && Transit(t) == Transit(s)
          && t.overwritten == s.overwritten && t.delivered == s.delivered && t.wiped == s.wiped
      }
  {
    StepLock(s, a);
  }

  lemma StepConserved(s: State, a: Act)
    requires LockOk(s) && Conserved(s) && Enabled(s, a)
    ensures LockOk(Next(s, a)) && Conserved(Next(s, a))
  {
    StepMoves(s, a);
    hide Next, LockOk, Transit, InHand, Items;
  }

  lemma StepOrdered(s: State, a: Act)
    requires LockOk(s) && Ordered(s) && Enabled(s, a)
    ensures LockOk(Next(s, a)) && Ordered(Next(s, a))
  {
    StepMoves(s, a);
    var t := Next(s, a);
    assert t.slot.Some? ==> t.slot.value + 1 == t.next;
    hide Next, LockOk, InHand, Items, Transit;
    var was, now := s.delivered + Transit(s), t.delivered + Transit(t);
    if a.Release? {
      assert now == was;
    } else {
      assert forall i :: 0 <= i < |s.delivered| ==> was[i] == s.delivered[i] && s.delivered[i] in was;
    }
  }

  lemma StepKeeps(s: State, a: Act)
    requires Inv(s) && Enabled(s, a)
    ensures Inv(Next(s, a))
  {
    StepLock(s, a);
    StepNotHidden(s, a);
    StepConserved(s, a);
    StepOrdered(s, a);
  }

  // ----- whole runs -----

  predicate Legal(s: State, acts: seq<Act>)
    decreases |acts|
  {
    acts == [] || (Enabled(s, acts[0]) && Legal(Next(s, acts[0]), acts[1..]))
  }

  function After(s: State, acts: seq<Act>): State
    requires Legal(s, acts)
    decreases |acts|
  {
    if acts == [] then s else After(Next(s, acts[0]), acts[1..])
  }

  lemma {:induction false} RunKeeps(s: State, acts: seq<Act>)
    requires Inv(s) && Legal(s, acts)
    ensures Inv(After(s, acts))
    decreases |acts|
  {
    if acts != [] {
      StepKeeps(s, acts[0]);
      RunKeeps(Next(s, acts[0]), acts[1..]);
    }
  }

  lemma {:induction false} UptoOnce(n: nat, x: nat)
    ensures Upto(n)[x] == if x < n then 1 else 0
  {
    if n > 0 { UptoOnce(n - 1, x); }
  }

  /** In how many places a deposit is. */
  function Fates(s: State, x: nat): nat
    requires LockOk(s)
  {
    multiset(s.delivered)[x] + multiset(s.overwritten)[x] + multiset(s.wiped)[x] + multiset(Transit(s))[x]
  }

  lemma OneFate(s: State, x: nat)
    requires LockOk(s) && Conserved(s)
    ensures Fates(s, x) == if x < s.next then 1 else 0
  {
    UptoOnce(s.next, x);
  }

  lemma DeliveredRise(s: State)
    requires LockOk(s) && Ordered(s)
    ensures Rising(s.delivered)
  {
    assert forall i :: 0 <= i < |s.delivered| ==> (s.delivered + Transit(s))[i] == s.delivered[i];
  }

  /** In every reachable state every deposit was delivered, overwritten or wiped,
      or is in the slot or in a poller's hand: in exactly one place, so that none
      is delivered twice; deliveries come in the order of the deposits; and a
      filled slot is never hidden. */
  lemma EveryRun(s: State, acts: seq<Act>)
    requires Init(s) && Legal(s, acts)
    ensures var t := After(s, acts); LockOk(t) && NotHidden(t) && Rising(t.delivered)
    ensures var t := After(s, acts); forall x: nat :: Fates(t, x) == if x < t.next then 1 else 0
  {
    InitInv(s);
    RunKeeps(s, acts);
    var t := After(s, acts);
    DeliveredRise(t);
    hide NotHidden, Ordered, Transit;
    forall x: nat ensures Fates(t, x) == if x < t.next then 1 else 0 { OneFate(t, x); }
  }

  /** When no signal and no reset is under way, a poll that nobody interrupts
      delivers the newest deposit if the slot is filled. */
  lemma QuietPollDelivers(s: State, p: nat)
    requires Inv(s) && s.slot.Some? && s.lock.None? && !AnyIn(s, Wrote) && !AnyIn(s, Lowered)
    requires p < |s.ctl| && s.ctl[p] == Idle
    ensures var acts := [See(p), Take(p), Clear(p), Release(p)];
      Legal(s, acts) && After(s, acts).delivered == s.delivered + [s.next - 1]
  {
    var s1 := Next(s, See(p));
    var s2 := Next(s1, Take(p));
    var s3 := Next(s2, Clear(p));
    assert s1.flag && s1.ctl[p] == Saw && s2.ctl[p] == Took(s.slot.value) && s3.ctl[p] == Cleared(s.slot.value);
    var s4 := Next(s3, Release(p));
    assert s4.delivered == s.delivered + [s.next - 1];
    hide Next, Enabled;
    LegalStep(s3, [Release(p)]);
    LegalStep(s2, [Clear(p), Release(p)]);
    LegalStep(s1, [Take(p), Clear(p), Release(p)]);
    LegalStep(s, [See(p), Take(p), Clear(p), Release(p)]);
  }

  lemma LegalStep(s: State, acts: seq<Act>)
    requires acts != [] && Enabled(s, acts[0]) && Legal(Next(s, acts[0]), acts[1..])
    ensures Legal(s, acts) && After(s, acts) == After(Next(s, acts[0]), acts[1..])
  {
  }

  /** Both exceptions happen: with the signal done but the reset half way, a filled
      slot goes unseen; and so it does before the flag is raised. */
  lemma AResetCanHideADeposit(s: State)
    requires Init(s) && |s.ctl| == 2
    ensures var acts := [Write(0), Raise(0), Lower(1)];
      && Legal(s, acts) && var t := After(s, acts);
      t.slot.Some? && !t.flag && t.ctl == [Idle, Lowered]
    ensures Legal(s, [Write(0)]) && var t := After(s, [Write(0)]); t.slot.Some? && !t.flag && t.ctl == [Wrote, Idle]
  {
    var s1 := Next(s, Write(0));
    var s2 := Next(s1, Raise(0));
    var s3 := Next(s2, Lower(1));
    assert s1.ctl == [Wrote, Idle] && s2.ctl == [Idle, Idle] && s3.ctl == [Idle, Lowered];
    assert s1.slot.Some? && !s1.flag && s3.slot.Some? && !s3.flag;
    hide Next;
    LegalStep(s2, [Lower(1)]);
    LegalStep(s1, [Raise(0), Lower(1)]);
    LegalStep(s, [Write(0), Raise(0), Lower(1)]);
    LegalStep(s, [Write(0)]);
  }
}
