/** How often polls that keep their distance can fall into a window of time. */
module RateBound {

  /** A poll: when, and the interval in force. */
  datatype Poll = Poll(time: nat, interval: nat)

  function InWindow(log: seq<Poll>, a: int, b: int): nat {
    if log == [] then 0 else (if a <= log[0].time <= b then 1 else 0) + InWindow(log[1..], a, b)
  }

  /** Each poll is at least `d` after the one before. */
  predicate Apart(log: seq<Poll>, d: nat) {
    forall i :: 0 <= i < |log| - 1 ==> log[i].time + d <= log[i + 1].time
  }

  lemma ApartStep(first: Poll, rest: seq<Poll>, d: nat)
    requires Apart(rest, d) && first.interval >= d
    requires rest != [] ==> first.time + first.interval <= rest[0].time
    ensures Apart([first] + rest, d)
  {
    var log := [first] + rest;
    forall i | 0 <= i < |log| - 1 ensures log[i].time + d <= log[i + 1].time {
      assert log[i + 1] == rest[i] && (i > 0 ==> log[i] == rest[i - 1]);
    }
  }

  lemma {:induction false} NoneBeyond(log: seq<Poll>, a: int, b: int, d: nat)
    requires Apart(log, d) && (log != [] ==> log[0].time > b)
    ensures InWindow(log, a, b) == 0
  {
    if log != [] { NoneBeyond(log[1..], a, b, d); }
  }

  lemma {:induction false} WindowSpan(log: seq<Poll>, a: int, b: int, d: nat)
    requires Apart(log, d) && a <= b
    ensures InWindow(log, a, b) > 0 ==> (InWindow(log, a, b) - 1) * d <= b - a
    decreases |log|
  {
    if log == [] { return; }
    var t := log[0].time;
    if t > b {
      NoneBeyond(log, a, b, d);
    } else if t < a {
      WindowSpan(log[1..], a, b, d);
    } else {
      var n := InWindow(log[1..], a, b);
      if t + d > b {
        NoneBeyond(log[1..], a, b, d);
      } else {
        RestFrom(log[1..], a, t + d, b, d);
        WindowSpan(log[1..], t + d, b, d);
        if n > 0 { assert n * d == (n - 1) * d + d; }
      }
    }
  }

  /** Polls that all come at `a'` or later are counted as well from `a'`. */
  lemma {:induction false} RestFrom(log: seq<Poll>, a: int, a': int, b: int, d: nat)
    requires Apart(log, d) && a <= a' && (log != [] ==> a' <= log[0].time)
    ensures InWindow(log, a, b) == InWindow(log, a', b)
  {
    if log != [] { RestFrom(log[1..], a, a', b, d); }
  }

  /** A window [a, b] holds at most floor((b - a) / d) + 1 of them. */
  lemma AtMostRate(log: seq<Poll>, a: int, b: int, d: nat)
    requires Apart(log, d) && a <= b && d >= 1
    ensures InWindow(log, a, b) <= (b - a) / d + 1
  {
    var n := InWindow(log, a, b);
    WindowSpan(log, a, b, d);
    if n > 0 { DivideBelow(n - 1, b - a, d); }
  }

  lemma DivideBelow(k: nat, x: nat, d: nat)
    requires d >= 1 && k * d <= x
    ensures k <= x / d
  {
    if k > x / d {
      assert x == d * (x / d) + x % d;
      Grows(d, x / d + 1, k);
    }
  }

  lemma Grows(d: nat, x: nat, y: nat)
    requires x <= y
    ensures d * x <= y * d
  {
    assert y * d == x * d + (y - x) * d;
    assert (y - x) * d >= 0;
  }
}
