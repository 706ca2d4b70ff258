/** A flat list of leaves, polled round by round from left to right.  In each round
    an environment says what each leaf would answer if it were polled in it. */
module Scan {
  import opened Combinators

  /** Names a leaf. */
  type Id = int

  datatype Env<R> = Env(at: Id -> Poll<R>)

  /** The leaves that are not ready, in order. */
  function Waiting<R>(xs: seq<Id>, env: Env<R>): seq<Id> {
    if xs == [] then [] else (if env.at(xs[0]).Ready? then [] else [xs[0]]) + Waiting(xs[1..], env)
  }

  /** The first round in which the leaf answers, or the number of rounds. */
  function FirstReady<R>(i: Id, rounds: seq<Env<R>>): (k: nat)
    ensures k <= |rounds| && (k < |rounds| ==> rounds[k].at(i).Ready?)
  {
    if rounds == [] || rounds[0].at(i).Ready? then 0 else 1 + FirstReady(i, rounds[1..])
  }

  function Max(x: nat, y: nat): nat { if x < y then y else x }

  /** The latest of the leaves' first rounds. */
  function MaxTime<R>(xs: seq<Id>, rounds: seq<Env<R>>): nat {
    if xs == [] then 0 else Max(FirstReady(xs[0], rounds), MaxTime(xs[1..], rounds))
  }

  /** The leaves that answer in round `k` or later. */
  function NotBefore<R>(xs: seq<Id>, rounds: seq<Env<R>>, k: nat): seq<Id> {
    if xs == [] then [] else (if FirstReady(xs[0], rounds) >= k then [xs[0]] else []) + NotBefore(xs[1..], rounds, k)
  }

  lemma {:induction false} WaitingOfBoth<R>(xs: seq<Id>, ys: seq<Id>, env: Env<R>)
    ensures Waiting(xs + ys, env) == Waiting(xs, env) + Waiting(ys, env)
  {
    if xs == [] {
      assert xs + ys == ys;
    } else {
      WaitingOfBoth(xs[1..], ys, env);
      var first := if env.at(xs[0]).Ready? then [] else [xs[0]];
      assert (xs + ys)[0] == xs[0] && (xs + ys)[1..] == xs[1..] + ys;
      var a, b := Waiting(xs[1..], env), Waiting(ys, env);
      assert first + (a + b) == (first + a) + b;
    }
  }

  lemma NoneWait<R>(env: Env<R>)
    ensures Waiting([], env) == []
  {
  }

  lemma {:induction false} WaitingHas<R>(xs: seq<Id>, env: Env<R>, i: Id)
    ensures i in Waiting(xs, env) <==> i in xs && env.at(i).Pending?
  {
    if xs != [] { WaitingHas(xs[1..], env, i); }
  }

  /** One round closer. */
  lemma {:induction false} MaxStep<R>(xs: seq<Id>, rounds: seq<Env<R>>)
    requires rounds != []
    ensures var rest := Waiting(xs, rounds[0]);
      MaxTime(xs, rounds) == if rest == [] then 0 else 1 + MaxTime(rest, rounds[1..])
  {
    if xs == [] { return; }
    MaxStep(xs[1..], rounds);
    var rest, tail := Waiting(xs, rounds[0]), Waiting(xs[1..], rounds[0]);
    if rounds[0].at(xs[0]).Ready? {
      assert rest == tail;
    } else {
      assert rest[0] == xs[0] && rest[1..] == tail;
      assert FirstReady(xs[0], rounds) == 1 + FirstReady(xs[0], rounds[1..]);
      if tail == [] { assert MaxTime(tail, rounds[1..]) == 0; }
    }
  }

  lemma {:induction false} LateStep<R>(xs: seq<Id>, rounds: seq<Env<R>>, k: nat)
    requires rounds != []
    ensures NotBefore(xs, rounds, k + 1) == NotBefore(Waiting(xs, rounds[0]), rounds[1..], k)
  {
    if xs == [] { return; }
    LateStep(xs[1..], rounds, k);
    var rest, tail := Waiting(xs, rounds[0]), Waiting(xs[1..], rounds[0]);
    if rounds[0].at(xs[0]).Ready? {
      assert rest == tail;
      assert FirstReady(xs[0], rounds) == 0;
    } else {
      assert rest[0] == xs[0] && rest[1..] == tail;
      assert FirstReady(xs[0], rounds) == 1 + FirstReady(xs[0], rounds[1..]);
    }
  }

  lemma NoneLate<R>(rounds: seq<Env<R>>, k: nat)
    ensures NotBefore([], rounds, k) == []
  {
  }

  lemma {:induction false} AllFromTheStart<R>(xs: seq<Id>, rounds: seq<Env<R>>)
    ensures NotBefore(xs, rounds, 0) == xs
  {
    if xs != [] { AllFromTheStart(xs[1..], rounds); }
  }

  /** The leaf with the least `f`, the leftmost of those. */
  function Winner(xs: seq<Id>, f: Id -> nat): (w: Id)
    requires xs != []
    ensures w in xs
  {
    if |xs| == 1 then xs[0]
    else var w := Winner(xs[1..], f); if f(xs[0]) <= f(w) then xs[0] else w
  }

  lemma {:induction false} WinnerIsLeftmostLeast(xs: seq<Id>, f: Id -> nat) returns (p: nat)
    requires xs != []
    ensures p < |xs| && xs[p] == Winner(xs, f)
    ensures forall q :: 0 <= q < |xs| ==> f(xs[p]) <= f(xs[q])
    ensures forall q :: 0 <= q < p ==> f(xs[p]) < f(xs[q])
  {
    p := 0;
    if |xs| > 1 {
      var q := WinnerIsLeftmostLeast(xs[1..], f);
      assert forall r :: 0 <= r < |xs[1..]| ==> xs[1..][r] == xs[r + 1];
      if f(xs[0]) > f(Winner(xs[1..], f)) { p := q + 1; }
      forall r | 0 <= r < |xs| ensures f(xs[p]) <= f(xs[r]) { if r > 0 { assert xs[r] == xs[1..][r - 1]; } }
      forall r | 0 <= r < p ensures f(xs[p]) < f(xs[r]) { if r > 0 { assert xs[r] == xs[1..][r - 1]; } }
    }
  }

  /** A round later, everybody who still waits is one round nearer, and the winner
      is the same, unless it is out of reach. */
  lemma {:induction false} WinnerStep<R>(xs: seq<Id>, env: Env<R>, f: Id -> nat, g: Id -> nat, cap: nat)
    requires xs != []
    requires forall j :: 0 <= j < |xs| ==>
      if env.at(xs[j]).Pending? then f(xs[j]) == g(xs[j]) + 1 <= cap else f(xs[j]) == cap
    ensures var rest := Waiting(xs, env);
      if f(Winner(xs, f)) < cap then rest != [] && Winner(rest, g) == Winner(xs, f)
      else f(Winner(xs, f)) == cap && (rest != [] ==> g(Winner(rest, g)) + 1 == cap)
  {
    var rest := Waiting(xs, env);
    if |xs| == 1 {
      assert xs[1..] == [];
      return;
    }
    forall j | 0 <= j < |xs[1..]| ensures
      if env.at(xs[1..][j]).Pending? then f(xs[1..][j]) == g(xs[1..][j]) + 1 <= cap else f(xs[1..][j]) == cap
    {
      assert xs[1..][j] == xs[j + 1];
    }
    WinnerStep(xs[1..], env, f, g, cap);
    var tail := Waiting(xs[1..], env);
    if env.at(xs[0]).Pending? {
      assert rest[0] == xs[0] && rest[1..] == tail;
    } else {
      assert rest == tail;
    }
  }

  datatype Outcome<R> = Running | Finished(time: nat, result: R)

  function Later<R>(o: Outcome<R>): Outcome<R> {
    match o
    case Running => Running
    case Finished(k, r) => Finished(k + 1, r)
  }
}
