/** A pass of the nano executor on values: which tasks it polls, which it drops,
    and where it leaves the others. */
module NanoPass {
  import opened Clock

  /** A node without its link; `id` names its future. */
  datatype Task = Task(id: nat, interval: nat, next: nat)

  /** `interval` arrives as a rate in Hz and leaves as ticks; the task goes in front. */
  function Added(ts: seq<Task>, t: Task, base: nat): seq<Task> {
    [t.(interval := Ticks(t.interval, base))] + ts
  }

  /** The interval in ticks is the longest that still gives the rate, and none at rate 0. */
  lemma AddedGetsItsInterval(ts: seq<Task>, t: Task, base: nat)
    ensures var a, f := Added(ts, t, base), t.interval;
      && |a| == |ts| + 1 && a[1..] == ts && a[0].id == t.id && a[0].next == t.next
      && if f == 0 then a[0].interval == 0 else a[0].interval * f <= base < (a[0].interval + 1) * f
  {
    TicksIsTheInterval(t.interval, base);
  }

  function Delayed(t: Task, time: nat): Task {
    t.(next := (time + t.interval) % WORD64)
  }

  /** One pass at `time`, in which the future of each id would answer `ready(id)`:
      a due task that is ready goes, and the one behind it is passed over. */
  function Pass(ts: seq<Task>, time: nat, ready: nat -> bool): seq<Task> {
    if ts == [] then []
    else if time < ts[0].next then [ts[0]] + Pass(ts[1..], time, ready)
    else if !ready(ts[0].id) then [Delayed(ts[0], time)] + Pass(ts[1..], time, ready)
    else if |ts| == 1 then []
    else [ts[1]] + Pass(ts[2..], time, ready)
  }

  /** The tasks it polls, in order. */
  function Polled(ts: seq<Task>, time: nat, ready: nat -> bool): seq<nat> {
    if ts == [] then []
    else if time < ts[0].next then Polled(ts[1..], time, ready)
    else if !ready(ts[0].id) then [ts[0].id] + Polled(ts[1..], time, ready)
    else if |ts| == 1 then [ts[0].id]
    else [ts[0].id] + Polled(ts[2..], time, ready)
  }

  predicate Has(ts: seq<Task>, x: nat) {
    ts != [] && (ts[0].id == x || Has(ts[1..], x))
  }

  predicate Distinct(ts: seq<Task>) {
    ts == [] || (!Has(ts[1..], ts[0].id) && Distinct(ts[1..]))
  }

  /** Whether the pass polls the task to completion, and so drops it. */
  predicate Completes(ts: seq<Task>, time: nat, ready: nat -> bool, x: nat) {
    x in Polled(ts, time, ready) && ready(x)
  }

  lemma TwoOn(ts: seq<Task>)
    requires |ts| >= 2
    ensures ts[1..][1..] == ts[2..] && ts[1..][0] == ts[1]
  {
  }

  // ----- one pass -----

  lemma {:induction false} PolledAreTasks(ts: seq<Task>, time: nat, ready: nat -> bool, x: nat)
    requires x in Polled(ts, time, ready)
    ensures Has(ts, x)
  {
    if time < ts[0].next || !ready(ts[0].id) {
      if x != ts[0].id { PolledAreTasks(ts[1..], time, ready, x); }
    } else if |ts| > 1 && x != ts[0].id {
      TwoOn(ts);
      PolledAreTasks(ts[2..], time, ready, x);
    }
  }

  /** Exactly the tasks that were polled to completion are gone. */
  lemma {:induction false} PassDropsExactly(ts: seq<Task>, time: nat, ready: nat -> bool, x: nat)
    requires Distinct(ts)
    ensures Has(Pass(ts, time, ready), x) <==> Has(ts, x) && !Completes(ts, time, ready, x)
    decreases |ts|
  {
    if ts == [] { return; }
    if time < ts[0].next || !ready(ts[0].id) {
      PassDropsExactly(ts[1..], time, ready, x);
      var p := Pass(ts, time, ready);
      assert p[1..] == Pass(ts[1..], time, ready);
      if time < ts[0].next && x == ts[0].id && x in Polled(ts[1..], time, ready) {
        PolledAreTasks(ts[1..], time, ready, x);
      }
    } else if |ts| > 1 {
      TwoOn(ts);
      var rest := ts[2..];
      PassDropsExactly(rest, time, ready, x);
      var p := Pass(ts, time, ready);
      assert p[1..] == Pass(rest, time, ready);
      assert Has(ts, x) <==> x == ts[0].id || x == ts[1].id || Has(rest, x);
      assert Has(p, x) <==> x == ts[1].id || Has(p[1..], x);
      assert x in Polled(ts, time, ready) <==> x == ts[0].id || x in Polled(rest, time, ready);
      if x == ts[0].id || x == ts[1].id {
        assert !Has(rest, x);
        if x in Polled(rest, time, ready) { PolledAreTasks(rest, time, ready, x); }
      }
    }
  }

  lemma {:induction false} PassDistinct(ts: seq<Task>, time: nat, ready: nat -> bool)
    requires Distinct(ts)
    ensures Distinct(Pass(ts, time, ready))
    decreases |ts|
  {
    if ts == [] { return; }
    var p := Pass(ts, time, ready);
    if time < ts[0].next || !ready(ts[0].id) {
      assert p[1..] == Pass(ts[1..], time, ready);
      PassDistinct(ts[1..], time, ready);
      PassDropsExactly(ts[1..], time, ready, ts[0].id);
    } else if |ts| > 1 {
      TwoOn(ts);
      assert p[1..] == Pass(ts[2..], time, ready);
      PassDistinct(ts[2..], time, ready);
      PassDropsExactly(ts[2..], time, ready, ts[1].id);
    }
  }

  predicate NoRepeats(s: seq<nat>) {
    s == [] || (s[0] !in s[1..] && NoRepeats(s[1..]))
  }

  /** No task is polled twice in a pass. */
  lemma {:induction false} NotPolledTwice(ts: seq<Task>, time: nat, ready: nat -> bool)
    requires Distinct(ts)
    ensures NoRepeats(Polled(ts, time, ready))
    decreases |ts|
  {
    if ts == [] { return; }
    var polled := Polled(ts, time, ready);
    var k := if time >= ts[0].next && ready(ts[0].id) && |ts| > 1 then 2 else 1;
    if k == 2 { TwoOn(ts); }
    NotPolledTwice(ts[k..], time, ready);
    if time >= ts[0].next {
      assert polled[1..] == Polled(ts[k..], time, ready);
      if ts[0].id in polled[1..] { PolledAreTasks(ts[k..], time, ready, ts[0].id); }
    }
  }

  lemma {:induction false} HasAt(ts: seq<Task>, i: nat)
    requires i < |ts|
    ensures Has(ts, ts[i].id)
  {
    if i > 0 { HasAt(ts[1..], i - 1); }
  }

  /** How far the cursor moves: past the next node as well if this one goes. */
  function Stride(ts: seq<Task>, time: nat, ready: nat -> bool): (k: nat)
    requires ts != []
  {
    if time >= ts[0].next && ready(ts[0].id) then 2 else 1
  }

  lemma PassUnfolds(ts: seq<Task>, time: nat, ready: nat -> bool)
    requires ts != [] && Stride(ts, time, ready) <= |ts|
    ensures var k := Stride(ts, time, ready);
      var first := if time >= ts[0].next && k == 1 then Delayed(ts[0], time) else ts[k - 1];
      && Pass(ts, time, ready) == [first] + Pass(ts[k..], time, ready)
      && Polled(ts, time, ready) == (if time >= ts[0].next then [ts[0].id] else []) + Polled(ts[k..], time, ready)
  {
  }

  /** What follows is about other tasks. */
  lemma DistinctUnfolds(ts: seq<Task>, k: nat, time: nat, ready: nat -> bool)
    requires Distinct(ts) && 1 <= k <= 2 && k <= |ts|
    ensures Distinct(ts[k..])
    ensures forall i :: 0 <= i < k ==> ts[i].id !in Polled(ts[k..], time, ready)
    ensures forall i :: 0 < i < |ts| ==> ts[i].id != ts[0].id
  {
    if k == 2 { TwoOn(ts); }
    forall i | 0 <= i < k ensures ts[i].id !in Polled(ts[k..], time, ready) {
      if ts[i].id in Polled(ts[k..], time, ready) { PolledAreTasks(ts[k..], time, ready, ts[i].id); }
    }
    forall i | 0 < i < |ts| ensures ts[i].id != ts[0].id { HasAt(ts[1..], i - 1); }
  }

  /** What one pass does to a task at index `i` that it does not complete: polled at
      `time`, it is next due at `time` plus its interval, or at what a 64-bit word
      holds of that; not polled, it is unchanged, and if it was
      due it has moved forward, a task before it having gone.  It never moves back. */
  lemma {:induction false} OnePass(ts: seq<Task>, time: nat, ready: nat -> bool, i: nat) returns (j: nat)
    requires Distinct(ts) && i < |ts| && !Completes(ts, time, ready, ts[i].id)
    ensures var p := Pass(ts, time, ready);
      && j < |p| && j <= i
      && (if ts[i].id in Polled(ts, time, ready) then
            time >= ts[i].next && p[j] == ts[i].(next := (time + ts[i].interval) % WORD64)
          else p[j] == ts[i] && (time >= ts[i].next ==> j < i))
    decreases |ts|
  {
    hide Pass, Polled, Distinct, Has;
    var k := Stride(ts, time, ready);
    if k > |ts| { OneGoes(ts, time, ready); }
    PassUnfolds(ts, time, ready);
    DistinctUnfolds(ts, k, time, ready);
    j := 0;
    if i >= k {
      assert ts[k..][i - k] == ts[i];
      j := OnePass(ts[k..], time, ready, i - k);
      j := j + 1;
    }
  }

  /** A pass polls exactly the due tasks that it does not pass over, and it passes
      over exactly those right behind a task that it completes. */
  lemma {:induction false} PolledExactly(ts: seq<Task>, time: nat, ready: nat -> bool, i: nat)
    requires Distinct(ts) && i < |ts|
    ensures ts[i].id in Polled(ts, time, ready) <==>
      ts[i].next <= time && !(i > 0 && Completes(ts, time, ready, ts[i - 1].id))
    decreases |ts|
  {
    hide Pass, Polled, Distinct, Has;
    var k := Stride(ts, time, ready);
    if k > |ts| {
      OneGoes(ts, time, ready);
    } else {
      PassUnfolds(ts, time, ready);
      DistinctUnfolds(ts, k, time, ready);
      if i >= k {
        var rest := ts[k..];
        assert rest[i - k] == ts[i] && (i > k ==> rest[i - k - 1] == ts[i - 1]);
        PolledExactly(rest, time, ready, i - k);
      }
    }
  }

  lemma OneGoes(ts: seq<Task>, time: nat, ready: nat -> bool)
    requires ts != [] && Stride(ts, time, ready) > |ts|
    ensures Completes(ts, time, ready, ts[0].id)
  {
  }
}
