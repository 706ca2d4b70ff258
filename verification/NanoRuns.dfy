/** The nano executor over many passes: no due task is put off for ever, ready
    tasks are emptied in a known number of passes, and no task is polled faster
    than its rate. */
module NanoRuns {
  import opened Clock
  import opened NanoPass
  import opened RateBound
  import Words

  datatype Act = Add(task: Task, base: nat) | Step(time: nat, ready: nat -> bool)

  function Next(ts: seq<Task>, a: Act): seq<Task> {
    match a
    case Add(t, base) => Added(ts, t, base)
    case Step(time, ready) => Pass(ts, time, ready)
  }

  function After(ts: seq<Task>, acts: seq<Act>): seq<Task>
    decreases |acts|
  {
    if acts == [] then ts else After(Next(ts, acts[0]), acts[1..])
  }

  /** Added nodes are new, and none of them is `x`. */
  predicate NewTasks(ts: seq<Task>, acts: seq<Act>, x: nat)
    decreases |acts|
  {
    acts != [] ==>
      && (acts[0].Add? ==> !Has(ts, acts[0].task.id) && acts[0].task.id != x)
      && NewTasks(Next(ts, acts[0]), acts[1..], x)
  }

  predicate IsPollOf(ts: seq<Task>, a: Act, x: nat) {
    a.Step? && x in Polled(ts, a.time, a.ready)
  }

  function Polls(ts: seq<Task>, acts: seq<Act>, x: nat): nat
    decreases |acts|
  {
    if acts == [] then 0 else (if IsPollOf(ts, acts[0], x) then 1 else 0) + Polls(Next(ts, acts[0]), acts[1..], x)
  }

  function Steps(acts: seq<Act>): nat {
    if acts == [] then 0 else (if acts[0].Step? then 1 else 0) + Steps(acts[1..])
  }

  lemma StepDistinct(ts: seq<Task>, acts: seq<Act>, x: nat)
    requires Distinct(ts) && acts != [] && NewTasks(ts, acts, x)
    ensures Distinct(Next(ts, acts[0])) && (Has(Next(ts, acts[0]), x) ==> Has(ts, x))
  {
    var a := acts[0];
    match a
    case Add(t, base) => assert Added(ts, t, base)[1..] == ts;
    case Step(time, ready) =>
      PassDistinct(ts, time, ready);
      PassDropsExactly(ts, time, ready, x);
  }

  /** A task that was dropped does not come back. */
  lemma {:induction false} GoneForGood(ts: seq<Task>, acts: seq<Act>, x: nat)
    requires Distinct(ts) && NewTasks(ts, acts, x) && Has(After(ts, acts), x)
    ensures Has(ts, x)
    decreases |acts|
  {
    if acts != [] {
      StepDistinct(ts, acts, x);
      GoneForGood(Next(ts, acts[0]), acts[1..], x);
    }
  }

  // ----- no due task is put off for ever -----

  predicate DueAt(ts: seq<Task>, x: nat, time: nat) {
    forall i :: 0 <= i < |ts| && ts[i].id == x ==> ts[i].next <= time
  }

  predicate DueThroughout(ts: seq<Task>, acts: seq<Act>, x: nat)
    decreases |acts|
  {
    acts == [] || ((acts[0].Step? ==> DueAt(ts, x, acts[0].time)) && DueThroughout(Next(ts, acts[0]), acts[1..], x))
  }

  /** A task at index `i` that is due in every one of k passes, while m tasks are
      added in front of it, is polled in at least k - i - m of them: it misses a
      pass only when the task before it goes. */
  lemma {:induction false} MissesAreBounded(ts: seq<Task>, acts: seq<Act>, i: nat)
    requires Distinct(ts) && i < |ts|
    requires var x := ts[i].id; NewTasks(ts, acts, x) && DueThroughout(ts, acts, x) && Has(After(ts, acts), x)
    ensures Polls(ts, acts, ts[i].id) >= Steps(acts) - i - (|acts| - Steps(acts))
    decreases |acts|
  {
    if acts == [] { return; }
    var x := ts[i].id;
    var t := Next(ts, acts[0]);
    StepDistinct(ts, acts, x);
    match acts[0]
    case Add(task, base) =>
      assert t[i + 1] == ts[i];
      MissesAreBounded(t, acts[1..], i + 1);
    case Step(time, ready) =>
      GoneForGood(t, acts[1..], x);
      PassDropsExactly(ts, time, ready, x);
      var j := OnePass(ts, time, ready, i);
      MissesAreBounded(t, acts[1..], j);
  }

  // ----- emptying -----

  function Log2(n: nat): nat {
    if n < 2 then 0 else 1 + Log2(n / 2)
  }

  lemma {:induction false} Log2IsFloor(n: nat)
    requires n >= 1
    ensures Words.Pow2(Log2(n)) <= n < Words.Pow2(Log2(n) + 1)
  {
    if n >= 2 { Log2IsFloor(n / 2); } else { assert Words.Pow2(1) == 2 * Words.Pow2(0); }
  }

  predicate AllDue(ts: seq<Task>, time: nat) {
    forall i :: 0 <= i < |ts| ==> ts[i].next <= time
  }

  /** A pass over due tasks that are all ready drops every other one. */
  lemma {:induction false} HalfAreLeft(ts: seq<Task>, time: nat, ready: nat -> bool)
    requires AllDue(ts, time) && forall id: nat :: ready(id)
    ensures |Pass(ts, time, ready)| == |ts| / 2
    ensures forall later :: AllDue(ts, later) ==> AllDue(Pass(ts, time, ready), later)
    decreases |ts|
  {
    if |ts| > 1 {
      HalfAreLeft(ts[2..], time, ready);
      var p := Pass(ts, time, ready);
      assert p[1..] == Pass(ts[2..], time, ready);
      forall later | AllDue(ts, later) ensures AllDue(p, later) {
        assert AllDue(ts[2..], later);
        forall i | 0 <= i < |p| ensures p[i].next <= later { assert i > 0 ==> p[i] == p[1..][i - 1]; }
      }
    }
  }

  ghost predicate AllReady(a: Act) {
    a.Step? && forall id: nat :: a.ready(id)
  }

  /** n >= 1 tasks that are always due and ready at once take exactly
      floor(log2 n) + 1 passes. */
  lemma {:induction false} EmptiedInLogPasses(ts: seq<Task>, acts: seq<Act>)
    requires ts != [] && forall k :: 0 <= k < |acts| ==> AllReady(acts[k]) && AllDue(ts, acts[k].time)
    ensures After(ts, acts) == [] <==> |acts| >= Log2(|ts|) + 1
    decreases |acts|
  {
    if acts == [] { return; }
    var t := Next(ts, acts[0]);
    assert AllReady(acts[0]) && AllDue(ts, acts[0].time);
    HalfAreLeft(ts, acts[0].time, acts[0].ready);
    forall k | 0 <= k < |acts[1..]| ensures AllReady(acts[1..][k]) && AllDue(t, acts[1..][k].time) {
      assert acts[1..][k] == acts[k + 1];
    }
    if t == [] { StaysEmpty(acts[1..]); } else { EmptiedInLogPasses(t, acts[1..]); }
  }

  lemma {:induction false} StaysEmpty(acts: seq<Act>)
    requires forall k :: 0 <= k < |acts| ==> acts[k].Step?
    ensures After([], acts) == []
    decreases |acts|
  {
    if acts != [] { StaysEmpty(acts[1..]); }
  }

  // ----- rates -----

  function IntervalOf(ts: seq<Task>, x: nat): nat {
    if ts == [] then 0 else if ts[0].id == x then ts[0].interval else IntervalOf(ts[1..], x)
  }

  function PollLog(ts: seq<Task>, acts: seq<Act>, x: nat): seq<Poll>
    decreases |acts|
  {
    if acts == [] then []
    else (if IsPollOf(ts, acts[0], x) then [Poll(acts[0].time, IntervalOf(ts, x))] else [])
         + PollLog(Next(ts, acts[0]), acts[1..], x)
  }

  /** The task, if it is there, has interval `d` and is not due before `y`. */
  predicate Paced(ts: seq<Task>, x: nat, d: nat, y: nat) {
    forall i :: 0 <= i < |ts| && ts[i].id == x ==> ts[i].interval == d && y <= ts[i].next
  }

  lemma {:induction false} IndexOf(ts: seq<Task>, x: nat) returns (i: nat)
    requires Has(ts, x)
    ensures i < |ts| && ts[i].id == x
  {
    if ts[0].id == x { i := 0; } else { i := IndexOf(ts[1..], x); i := i + 1; }
  }

  lemma {:induction false} IndexIsUnique(ts: seq<Task>, i: nat, j: nat)
    requires Distinct(ts) && i < |ts| && j < |ts| && ts[i].id == ts[j].id
    ensures i == j && IntervalOf(ts, ts[i].id) == ts[i].interval
  {
    if i > 0 && j > 0 {
      HasAt(ts[1..], i - 1);
      IndexIsUnique(ts[1..], i - 1, j - 1);
    } else {
      if i > 0 { HasAt(ts[1..], i - 1); }
      if j > 0 { HasAt(ts[1..], j - 1); }
    }
  }

  /** A pass leaves the task due no earlier than it was, and if it polls it, an
      interval later. */
  lemma PassPaces(ts: seq<Task>, time: nat, ready: nat -> bool, x: nat, d: nat, y: nat)
    requires Distinct(ts) && Paced(ts, x, d, y) && time + d < WORD64
    ensures Paced(Pass(ts, time, ready), x, d, if x in Polled(ts, time, ready) then time + d else y)
    ensures x in Polled(ts, time, ready) ==> y <= time && IntervalOf(ts, x) == d
  {
    var p := Pass(ts, time, ready);
    var polled := Polled(ts, time, ready);
    PassDistinct(ts, time, ready);
    PassDropsExactly(ts, time, ready, x);
    if Has(p, x) {
      var i := IndexOf(ts, x);
      IndexIsUnique(ts, i, i);
      var j := OnePass(ts, time, ready, i);
      forall k | 0 <= k < |p| && p[k].id == x ensures p[k] == p[j] { IndexIsUnique(p, k, j); }
    } else {
      forall k | 0 <= k < |p| ensures p[k].id != x { HasAt(p, k); }
      if x in polled { DueIfPolled(ts, time, ready, x, d, y); }
    }
  }

  lemma {:induction false} DueIfPolled(ts: seq<Task>, time: nat, ready: nat -> bool, x: nat, d: nat, y: nat)
    requires Distinct(ts) && Paced(ts, x, d, y) && x in Polled(ts, time, ready)
    ensures y <= time && IntervalOf(ts, x) == d
    decreases |ts|
  {
    var k := if time >= ts[0].next && ready(ts[0].id) && |ts| > 1 then 2 else 1;
    if k == 2 { TwoOn(ts); }
    if ts[0].id == x {
      if time < ts[0].next { PolledAreTasks(ts[1..], time, ready, x); }
    } else {
      assert x in Polled(ts[k..], time, ready);
      PolledAreTasks(ts[k..], time, ready, x);
      DueIfPolled(ts[k..], time, ready, x, d, y);
    }
  }

  predicate NoOverflow(acts: seq<Act>, d: nat) {
    forall k :: 0 <= k < |acts| && acts[k].Step? ==> acts[k].time + d < WORD64
  }

  /** What the first step shows, and what it leaves for the rest of the run to show. */
  lemma NextFrom(ts: seq<Task>, acts: seq<Act>, x: nat, d: nat, y: nat) returns (now: seq<Poll>, y': nat)
    requires Distinct(ts) && Paced(ts, x, d, y) && NewTasks(ts, acts, x) && NoOverflow(acts, d) && acts != []
    ensures var t := Next(ts, acts[0]);
      && Distinct(t) && Paced(t, x, d, y') && NewTasks(t, acts[1..], x) && NoOverflow(acts[1..], d)
      && PollLog(ts, acts, x) == now + PollLog(t, acts[1..], x)
    ensures if now == [] then y' == y else now == [Poll(now[0].time, d)] && y <= now[0].time && y' == now[0].time + d
  {
    StepDistinct(ts, acts, x);
    hide Pass, Polled, Distinct, Has;
    now, y' := [], y;
    match acts[0]
    case Add(task, base) =>
    case Step(time, ready) =>
      PassPaces(ts, time, ready, x, d, y);
      if x in Polled(ts, time, ready) { now, y' := [Poll(time, d)], time + d; }
  }

  lemma {:induction false} PollsKeepTheirDistance(ts: seq<Task>, acts: seq<Act>, x: nat, d: nat, y: nat)
    requires Distinct(ts) && Paced(ts, x, d, y) && NewTasks(ts, acts, x) && NoOverflow(acts, d)
    ensures var log := PollLog(ts, acts, x); Apart(log, d) && (log != [] ==> y <= log[0].time)
    decreases |acts|
  {
    if acts == [] { return; }
    hide *;
    var now, y' := NextFrom(ts, acts, x, d, y);
    PollsKeepTheirDistance(Next(ts, acts[0]), acts[1..], x, d, y');
    var rest := PollLog(Next(ts, acts[0]), acts[1..], x);
    if now == [] { assert now + rest == rest; } else { ApartStep(now[0], rest, d); }
  }

  /** A task of interval `d` is polled at most floor((b - a) / d) + 1 times in [a, b]. */
  lemma RateIsBounded(ts: seq<Task>, acts: seq<Act>, i: nat, a: nat, b: nat)
    requires Distinct(ts) && i < |ts| && NewTasks(ts, acts, ts[i].id) && ts[i].interval >= 1 && a <= b
    requires NoOverflow(acts, ts[i].interval)
    ensures InWindow(PollLog(ts, acts, ts[i].id), a, b) <= (b - a) / ts[i].interval + 1
  {
    var x, d := ts[i].id, ts[i].interval;
    forall k | 0 <= k < |ts| && ts[k].id == x ensures ts[k].interval == d { IndexIsUnique(ts, k, i); }
    PollsKeepTheirDistance(ts, acts, x, d, 0);
    AtMostRate(PollLog(ts, acts, x), a, b, d);
  }

  /** A task of `f` Hz, added on a clock of `base` ticks a second, is polled in any
      second at most 2f times, and at most f times if its rate divides the clock's. */
  lemma RateInHz(ts: seq<Task>, t: Task, base: nat, acts: seq<Act>, a: nat)
    requires Distinct(ts) && !Has(ts, t.id) && NewTasks(Added(ts, t, base), acts, t.id)
    requires 0 < t.interval <= base && NoOverflow(acts, Ticks(t.interval, base))
    ensures var n := InWindow(PollLog(Added(ts, t, base), acts, t.id), a, a + base - 1);
      n <= 2 * t.interval && (base % t.interval == 0 ==> n <= t.interval)
  {
    var added, f := Added(ts, t, base), t.interval;
    AddedGetsItsInterval(ts, t, base);
    var d := added[0].interval;
    assert d == Ticks(f, base);
    hide Pass, Polled, Ticks, Added;
    AtLeastOne(d, f, base);
    RateIsBounded(added, acts, 0, a, a + base - 1);
    PerSecond(d, f, base);
  }

  lemma MoreTimes(x: nat, y: nat, f: nat)
    requires x < y
    ensures (x + 1) * f <= y * f && (x + 1) * f == x * f + f
  {
    assert y * f == (x + 1) * f + (y - x - 1) * f;
  }

  lemma AtLeastOne(d: nat, f: nat, base: nat)
    requires 0 < f <= base && d * f <= base < (d + 1) * f
    ensures 1 <= d <= base
  {
    assert d * f == d + d * (f - 1);
  }

  lemma QuotientBelow(x: nat, d: nat, k: nat)
    requires d > 0 && x < k * d
    ensures x / d < k
  {
    assert x == d * (x / d) + x % d;
    if k <= x / d { Grows(d, k, x / d); }
  }

  /** How many polls `d` ticks apart fit into a second of `base` ticks. */
  lemma PerSecond(d: nat, f: nat, base: nat)
    requires 0 < f <= base && 0 < d && d * f <= base < (d + 1) * f
    ensures (base - 1) / d + 1 <= 2 * f
    ensures base % f == 0 ==> (base - 1) / d + 1 <= f
  {
    MoreTimes(0, d, f);
    assert (d + 1) * f == d * f + f && (2 * f) * d == d * f + d * f;
    QuotientBelow(base - 1, d, 2 * f);
    if base % f == 0 {
      Between(d, base / f, f);
      assert base == (base / f) * f == f * d;
      QuotientBelow(base - 1, d, f);
    }
  }

  lemma Between(d: nat, m: nat, f: nat)
    requires f > 0 && d * f <= m * f < (d + 1) * f
    ensures d == m
  {
    if m < d { MoreTimes(m, d, f); } else if m > d { MoreTimes(d, m, f); }
  }

  // ----- how late a poll can be -----

  /** The task is there, with interval `d`, due from `next` on. */
  predicate Waits(ts: seq<Task>, x: nat, d: nat, next: nat) {
    exists i :: 0 <= i < |ts| && ts[i] == Task(x, d, next)
  }

  /** The pass skips it: it completes the task right before it. */
  predicate PassedOver(ts: seq<Task>, time: nat, ready: nat -> bool, x: nat) {
    exists i :: 0 < i < |ts| && ts[i].id == x && Completes(ts, time, ready, ts[i - 1].id)
  }

  /** A pass polls a waiting task exactly when it is due and not passed over. */
  lemma WaitingIsPolledExactly(ts: seq<Task>, time: nat, ready: nat -> bool, x: nat, d: nat, next: nat)
    requires Distinct(ts) && Waits(ts, x, d, next)
    ensures x in Polled(ts, time, ready) <==> next <= time && !PassedOver(ts, time, ready, x)
  {
    var i :| 0 <= i < |ts| && ts[i] == Task(x, d, next);
    PolledExactly(ts, time, ready, i);
    hide Polled, Completes, Distinct;
    if PassedOver(ts, time, ready, x) {
      var k :| 0 < k < |ts| && ts[k].id == x && Completes(ts, time, ready, ts[k - 1].id);
      IndexIsUnique(ts, k, i);
    }
  }

  lemma KeepsWaiting(ts: seq<Task>, a: Act, x: nat, d: nat, next: nat)
    requires Distinct(ts) && Waits(ts, x, d, next) && (a.Step? ==> a.time < next) && (a.Add? ==> a.task.id != x)
    ensures Waits(Next(ts, a), x, d, next) && !IsPollOf(ts, a, x)
  {
    var i :| 0 <= i < |ts| && ts[i] == Task(x, d, next);
    match a
    case Add(t, base) =>
      AddedGetsItsInterval(ts, t, base);
      assert Next(ts, a)[i + 1] == ts[i];
    case Step(time, ready) =>
      PolledExactly(ts, time, ready, i);
      hide Pass, Polled;
      var j := OnePass(ts, time, ready, i);
      assert Pass(ts, time, ready)[j] == ts[i];
  }

  lemma {:induction false} WaitsUntilDue(ts: seq<Task>, acts: seq<Act>, x: nat, d: nat, next: nat)
    requires Distinct(ts) && Waits(ts, x, d, next) && NewTasks(ts, acts, x)
    requires forall k :: 0 <= k < |acts| && acts[k].Step? ==> acts[k].time < next
    ensures Distinct(After(ts, acts)) && Waits(After(ts, acts), x, d, next) && Polls(ts, acts, x) == 0
    decreases |acts|
  {
    if acts == [] { return; }
    StepDistinct(ts, acts, x);
    hide Pass, Polled, Distinct, Waits, Next, IsPollOf;
    KeepsWaiting(ts, acts[0], x, d, next);
    WaitsUntilDue(Next(ts, acts[0]), acts[1..], x, d, next);
  }

  lemma AfterAPendingPoll(ts: seq<Task>, time: nat, ready: nat -> bool, x: nat)
    requires Distinct(ts) && x in Polled(ts, time, ready) && !ready(x) && time + IntervalOf(ts, x) < WORD64
    ensures var p, d := Pass(ts, time, ready), IntervalOf(ts, x); Distinct(p) && Waits(p, x, d, time + d)
  {
    hide Pass, Polled, Distinct, Has, IntervalOf;
    PolledAreTasks(ts, time, ready, x);
    var i := IndexOf(ts, x);
    IndexIsUnique(ts, i, i);
    PassDistinct(ts, time, ready);
    var j := OnePass(ts, time, ready, i);
    assert Pass(ts, time, ready)[j] == Task(x, IntervalOf(ts, x), time + IntervalOf(ts, x));
  }

  /** A task polled pending at `time` is not polled again before `time` plus its
      interval, and the first pass from then on polls it, unless it passes over it. */
  lemma PolledAgainWhenDue(
      ts: seq<Task>, time: nat, ready: nat -> bool, x: nat, acts: seq<Act>, later: nat, ready': nat -> bool)
    requires Distinct(ts) && x in Polled(ts, time, ready) && !ready(x) && time + IntervalOf(ts, x) < WORD64
    requires NewTasks(Pass(ts, time, ready), acts, x) && time + IntervalOf(ts, x) <= later
    requires forall k :: 0 <= k < |acts| && acts[k].Step? ==> acts[k].time < time + IntervalOf(ts, x)
    ensures var t := After(Pass(ts, time, ready), acts);
      && Polls(Pass(ts, time, ready), acts, x) == 0
      && (x in Polled(t, later, ready') <==> !PassedOver(t, later, ready', x))
  {
    hide Pass, Polled, Distinct, Waits, PassedOver;
    var d := IntervalOf(ts, x);
    AfterAPendingPoll(ts, time, ready, x);
    WaitsUntilDue(Pass(ts, time, ready), acts, x, d, time + d);
    WaitingIsPolledExactly(After(Pass(ts, time, ready), acts), later, ready', x, d, time + d);
  }

  /** A task added with its first run at `next` is polled by the first pass from then
      on, unless that passes over it. */
  lemma PolledFirstWhenDue(
      ts: seq<Task>, t: Task, base: nat, acts: seq<Act>, later: nat, ready: nat -> bool)
    requires Distinct(ts) && !Has(ts, t.id) && NewTasks(Added(ts, t, base), acts, t.id) && t.next <= later
    requires forall k :: 0 <= k < |acts| && acts[k].Step? ==> acts[k].time < t.next
    ensures var u := After(Added(ts, t, base), acts);
      && Polls(Added(ts, t, base), acts, t.id) == 0
      && (t.id in Polled(u, later, ready) <==> !PassedOver(u, later, ready, t.id))
  {
    var added := Added(ts, t, base);
    AddedGetsItsInterval(ts, t, base);
    var d := added[0].interval;
    assert added[0] == Task(t.id, d, t.next);
    hide Pass, Polled, PassedOver, Added, Ticks;
    WaitsUntilDue(added, acts, t.id, d, t.next);
    WaitingIsPolledExactly(After(added, acts), later, ready, t.id, d, t.next);
  }
}
