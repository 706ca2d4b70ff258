/** Trees of `Join` and `TryJoin` mean the flat list of their leaves. */
module JoinTrees {
  import opened Combinators
  import opened Scan

  datatype Tree = Leaf(i: Id) | Node(head: Tree, tail: Tree, flags: Flags)

  /** A poll: the tree after it, its answer, and the leaves it polled, in order. */
  datatype Polled<R> = Polled(tree: Tree, answer: Poll<R>, log: seq<Id>)

  function After<R>(t: Tree, s: Stepped<Flags, R>, ph: Polled<R>, pt: Polled<R>): Polled<R>
    requires t.Node?
  {
    Polled(Node(if s.asksHead then ph.tree else t.head, if s.asksTail then pt.tree else t.tail, s.state), s.answer,
      (if s.asksHead then ph.log else []) + (if s.asksTail then pt.log else []))
  }

  function PollJoin(t: Tree, env: Env<Unit>): Polled<Unit> {
    match t
    case Leaf(i) => Polled(t, env.at(i), [i])
    case Node(head, tail, flags) =>
      var ph, pt := PollJoin(head, env), PollJoin(tail, env);
      After(t, JoinStep(flags, ph.answer, pt.answer), ph, pt)
  }

  function PollTry<E>(t: Tree, env: Env<Result<E>>): Polled<Result<E>> {
    match t
    case Leaf(i) => Polled(t, env.at(i), [i])
    case Node(head, tail, flags) =>
      var ph, pt := PollTry(head, env), PollTry(tail, env);
      After(t, TryStep(flags, ph.answer, pt.answer), ph, pt)
  }

  /** The leaves below no done flag, from left to right. */
  function Open(t: Tree): seq<Id> {
    match t
    case Leaf(i) => [i]
    case Node(head, tail, f) => (if f.head then [] else Open(head)) + (if f.tail then [] else Open(tail))
  }

  /** Not finished, and so is no part that may still be polled. */
  predicate Live(t: Tree) {
    t.Node? ==> !(t.flags.head && t.flags.tail) && (!t.flags.head ==> Live(t.head)) && (!t.flags.tail ==> Live(t.tail))
  }

  lemma {:induction false} LiveIsOpen(t: Tree)
    requires Live(t)
    ensures Open(t) != []
  {
    match t
    case Leaf(_) =>
    case Node(head, tail, f) => if f.head { LiveIsOpen(tail); } else { LiveIsOpen(head); }
  }

  // ----- join -----

  /** A poll of the tree polls the open leaves, each once and in order; it is ready
      when none of them is left waiting, and otherwise those are the open ones. */
  lemma {:induction false} JoinRound(t: Tree, env: Env<Unit>)
    requires Live(t)
    ensures var p, rest := PollJoin(t, env), Waiting(Open(t), env);
      && p.log == Open(t) && (p.answer.Ready? <==> rest == [])
      && (p.answer.Pending? ==> Live(p.tree) && Open(p.tree) == rest)
  {
    match t
    case Leaf(i) =>
    case Node(head, tail, f) =>
      var hs, ts := if f.head then [] else Open(head), if f.tail then [] else Open(tail);
      WaitingOfBoth(hs, ts, env);
      if !f.head { JoinRound(head, env); }
      if !f.tail { JoinRound(tail, env); }
  }

  /** The round in which the tree is ready, or the number of rounds. */
  function JoinTime(t: Tree, rounds: seq<Env<Unit>>): nat
    decreases |rounds|
  {
    if rounds == [] then 0
    else
      var p := PollJoin(t, rounds[0]);
      if p.answer.Ready? then 0 else 1 + JoinTime(p.tree, rounds[1..])
  }

  /** The tree is ready in the round in which the last of its leaves is. */
  lemma {:induction false} JoinIsReadyWithItsLastLeaf(t: Tree, rounds: seq<Env<Unit>>)
    requires Live(t)
    ensures JoinTime(t, rounds) == MaxTime(Open(t), rounds)
    decreases |rounds|
  {
    LiveIsOpen(t);
    if rounds == [] {
      NoRounds(Open(t), rounds);
    } else {
      JoinRound(t, rounds[0]);
      MaxStep(Open(t), rounds);
      var p := PollJoin(t, rounds[0]);
      if p.answer.Pending? { JoinIsReadyWithItsLastLeaf(p.tree, rounds[1..]); }
    }
  }

  lemma {:induction false} NoRounds<R>(xs: seq<Id>, rounds: seq<Env<R>>)
    requires rounds == []
    ensures MaxTime(xs, rounds) == 0
  {
    if xs != [] { NoRounds(xs[1..], rounds); }
  }

  /** The leaves that the poll of round `k` polls. */
  function JoinLog(t: Tree, rounds: seq<Env<Unit>>, k: nat): seq<Id>
    requires k < |rounds|
    decreases |rounds|
  {
    var p := PollJoin(t, rounds[0]);
    if k == 0 then p.log else if p.answer.Ready? then [] else JoinLog(p.tree, rounds[1..], k - 1)
  }

  lemma JoinLogStep(t: Tree, rounds: seq<Env<Unit>>, k: nat)
    requires k < |rounds|
    ensures var p := PollJoin(t, rounds[0]);
      JoinLog(t, rounds, k)
      == if k == 0 then p.log else if p.answer.Ready? then [] else JoinLog(p.tree, rounds[1..], k - 1)
  {
  }

  /** A leaf is polled in every round up to the one in which it is ready, and in none after. */
  lemma {:induction false} JoinPollsNoLeafAfterReady(t: Tree, rounds: seq<Env<Unit>>, k: nat)
    requires Live(t) && k < |rounds|
    ensures JoinLog(t, rounds, k) == NotBefore(Open(t), rounds, k)
    decreases |rounds|
  {
    hide *;
    JoinRound(t, rounds[0]);
    JoinLogStep(t, rounds, k);
    if k == 0 {
      AllFromTheStart(Open(t), rounds);
    } else {
      LateStep(Open(t), rounds, k - 1);
      NoneLate(rounds[1..], k - 1);
      var p := PollJoin(t, rounds[0]);
      if p.answer.Pending? { JoinPollsNoLeafAfterReady(p.tree, rounds[1..], k - 1); }
    }
  }

  // ----- try_join -----

  /** The first leaf that fails, or the length. */
  function FirstFail<E>(xs: seq<Id>, env: Env<Result<E>>): (k: nat)
    ensures k <= |xs| && (k < |xs| ==> Fails(env.at(xs[k]))) && forall j :: 0 <= j < k ==> !Fails(env.at(xs[j]))
  {
    if xs == [] || Fails(env.at(xs[0])) then 0 else 1 + FirstFail(xs[1..], env)
  }

  lemma {:induction false} FirstFailOfBoth<E>(xs: seq<Id>, ys: seq<Id>, env: Env<Result<E>>)
    ensures FirstFail(xs + ys, env)
         == if FirstFail(xs, env) < |xs| then FirstFail(xs, env) else |xs| + FirstFail(ys, env)
  {
    if xs == [] {
      assert xs + ys == ys;
    } else {
      FirstFailOfBoth(xs[1..], ys, env);
      assert (xs + ys)[1..] == xs[1..] + ys;
    }
  }

  /** What a poll does to a list of open leaves, as one scan. */
  ghost predicate Scans<E>(p: Polled<Result<E>>, xs: seq<Id>, env: Env<Result<E>>) {
    var k, rest := FirstFail(xs, env), Waiting(xs, env);
    if k < |xs| then p.answer == env.at(xs[k]) && p.log == xs[..k + 1]
    else
      && p.log == xs && p.answer == (if rest == [] then Ready(Ok) else Pending)
      && (rest != [] ==> Live(p.tree) && Open(p.tree) == rest)
  }

  /** A poll ends at the first open leaf that fails, with its error; if none does,
      it is a poll of a join. */
  lemma {:induction false} TryRound<E>(t: Tree, env: Env<Result<E>>)
    requires Live(t)
    ensures Scans(PollTry(t, env), Open(t), env)
  {
    match t
    case Leaf(i) => LeafScans(t, env.at(i), env);
    case Node(head, tail, f) =>
      var hs, ts := if f.head then [] else Open(head), if f.tail then [] else Open(tail);
      var ph, pt := PollTry(head, env), PollTry(tail, env);
      if !f.head { TryRound(head, env); }
      if !f.tail { TryRound(tail, env); }
      assert Parts(t, ph, pt, hs, ts, env);
      hide PollTry, Scans;
      if FirstFail(hs, env) < |hs| { HeadFails(t, ph, pt, hs, ts, env); }
      else if FirstFail(ts, env) < |ts| { TailFails(t, ph, pt, hs, ts, env); }
      else { NobodyFails(t, ph, pt, hs, ts, env); }
  }

  lemma LeafScans<E>(t: Tree, r: Poll<Result<E>>, env: Env<Result<E>>)
    requires t.Leaf? && r == env.at(t.i)
    ensures Scans(Polled(t, r, [t.i]), [t.i], env)
  {
    var xs := [t.i];
    assert xs[1..] == [] && xs[..1] == xs;
    assert FirstFail(xs, env) == if Fails(r) then 0 else 1;
    assert Waiting(xs, env) == if r.Ready? then [] else xs;
    if r.Ready? && !Fails(r) { assert r.value == Ok; }
  }

  /** The two parts of a node, scanned one after the other. */
  ghost predicate Parts<E>(
      t: Tree, ph: Polled<Result<E>>, pt: Polled<Result<E>>, hs: seq<Id>, ts: seq<Id>, env: Env<Result<E>>) {
    && t.Node? && Live(t)
    && (if t.flags.head then hs == [] else Scans(ph, hs, env))
    && (if t.flags.tail then ts == [] else Scans(pt, ts, env))
  }

  lemma HeadFails<E>(
      t: Tree, ph: Polled<Result<E>>, pt: Polled<Result<E>>, hs: seq<Id>, ts: seq<Id>, env: Env<Result<E>>)
    requires Parts(t, ph, pt, hs, ts, env) && FirstFail(hs, env) < |hs|
    ensures Scans(After(t, TryStep(t.flags, ph.answer, pt.answer), ph, pt), hs + ts, env)
  {
    hide Waiting, FirstFail, Live, Open;
    FirstFailOfBoth(hs, ts, env);
    var k := FirstFail(hs, env);
    assert (hs + ts)[..k + 1] == hs[..k + 1] && (hs + ts)[k] == hs[k];
  }

  lemma TailFails<E>(
      t: Tree, ph: Polled<Result<E>>, pt: Polled<Result<E>>, hs: seq<Id>, ts: seq<Id>, env: Env<Result<E>>)
    requires Parts(t, ph, pt, hs, ts, env) && FirstFail(hs, env) == |hs| && FirstFail(ts, env) < |ts|
    ensures Scans(After(t, TryStep(t.flags, ph.answer, pt.answer), ph, pt), hs + ts, env)
  {
    hide Waiting, FirstFail, Live, Open;
    FirstFailOfBoth(hs, ts, env);
    var j := FirstFail(ts, env);
    var r := After(t, TryStep(t.flags, ph.answer, pt.answer), ph, pt);
    assert r.answer == env.at(ts[j]) && r.log == hs + ts[..j + 1];
    hide TryStep, After, Parts;
    assert (hs + ts)[..|hs| + j + 1] == hs + ts[..j + 1] && (hs + ts)[|hs| + j] == ts[j];
  }

  lemma NobodyFails<E>(
      t: Tree, ph: Polled<Result<E>>, pt: Polled<Result<E>>, hs: seq<Id>, ts: seq<Id>, env: Env<Result<E>>)
    requires Parts(t, ph, pt, hs, ts, env) && FirstFail(hs, env) == |hs| && FirstFail(ts, env) == |ts|
    ensures Scans(After(t, TryStep(t.flags, ph.answer, pt.answer), ph, pt), hs + ts, env)
  {
    NoneWait(env);
    hide Waiting, FirstFail;
    FirstFailOfBoth(hs, ts, env);
    WaitingOfBoth(hs, ts, env);
    var r := After(t, TryStep(t.flags, ph.answer, pt.answer), ph, pt);
    assert r.log == hs + ts;
    assert r.tree.flags == Flags(Waiting(hs, env) == [], Waiting(ts, env) == []);
  }

  function TryOutcome<E>(t: Tree, rounds: seq<Env<Result<E>>>): Outcome<Result<E>>
    decreases |rounds|
  {
    if rounds == [] then Running
    else
      var p := PollTry(t, rounds[0]);
      if p.answer.Ready? then Finished(0, p.answer.value) else Later(TryOutcome(p.tree, rounds[1..]))
  }

  /** The same of the flat list. */
  function TryFlat<E>(xs: seq<Id>, rounds: seq<Env<Result<E>>>): Outcome<Result<E>>
    decreases |rounds|
  {
    if rounds == [] then Running
    else
      var k, rest := FirstFail(xs, rounds[0]), Waiting(xs, rounds[0]);
      if k < |xs| then Finished(0, rounds[0].at(xs[k]).value)
      else if rest == [] then Finished(0, Ok) else Later(TryFlat(rest, rounds[1..]))
  }

  lemma {:induction false} TryIsFlat<E>(t: Tree, rounds: seq<Env<Result<E>>>)
    requires Live(t)
    ensures TryOutcome(t, rounds) == TryFlat(Open(t), rounds)
    decreases |rounds|
  {
    if rounds != [] {
      TryRound(t, rounds[0]);
      var p := PollTry(t, rounds[0]);
      if p.answer.Pending? { TryIsFlat(p.tree, rounds[1..]); }
    }
  }

  function TryLog<E>(t: Tree, rounds: seq<Env<Result<E>>>, k: nat): seq<Id>
    requires k < |rounds|
    decreases |rounds|
  {
    var p := PollTry(t, rounds[0]);
    if k == 0 then p.log else if p.answer.Ready? then [] else TryLog(p.tree, rounds[1..], k - 1)
  }

  lemma TryLogs<E>(t: Tree, env: Env<Result<E>>)
    requires Live(t)
    ensures var p := PollTry(t, env);
      p.log <= Open(t) && (p.answer.Pending? ==> Live(p.tree) && Open(p.tree) == Waiting(Open(t), env))
  {
    TryRound(t, env);
    hide PollTry, Waiting, Open;
    if FirstFail(Open(t), env) < |Open(t)| {
      assert PollTry(t, env).answer.Ready?;
    }
  }

  lemma TryLogStep<E>(t: Tree, rounds: seq<Env<Result<E>>>, k: nat)
    requires k < |rounds|
    ensures var p := PollTry(t, rounds[0]);
      TryLog(t, rounds, k)
      == if k == 0 then p.log else if p.answer.Ready? then [] else TryLog(p.tree, rounds[1..], k - 1)
  {
  }

  /** Nor does a `try_join!` poll a leaf after the round in which it was ready. */
  lemma {:induction false} TryPollsNoLeafAfterReady<E>(t: Tree, rounds: seq<Env<Result<E>>>, k: nat)
    requires Live(t) && k < |rounds|
    ensures TryLog(t, rounds, k) <= NotBefore(Open(t), rounds, k)
    decreases |rounds|
  {
    hide *;
    TryLogs(t, rounds[0]);
    TryLogStep(t, rounds, k);
    if k == 0 {
      AllFromTheStart(Open(t), rounds);
    } else {
      LateStep(Open(t), rounds, k - 1);
      var p := PollTry(t, rounds[0]);
      if p.answer.Pending? { TryPollsNoLeafAfterReady(p.tree, rounds[1..], k - 1); }
    }
  }

  /** The round in which the leaf fails, or the number of rounds if it never does. */
  function FailTimeOf<E>(i: Id, rounds: seq<Env<Result<E>>>): nat {
    var k := FirstReady(i, rounds);
    if k < |rounds| && Fails(rounds[k].at(i)) then k else |rounds|
  }

  function FailTime<E>(rounds: seq<Env<Result<E>>>): Id -> nat { (i: Id) => FailTimeOf(i, rounds) }

  lemma FailTimeStep<E>(i: Id, rounds: seq<Env<Result<E>>>)
    requires rounds != []
    ensures FailTimeOf(i, rounds) ==
      if rounds[0].at(i).Pending? then FailTimeOf(i, rounds[1..]) + 1
      else if Fails(rounds[0].at(i)) then 0 else |rounds|
    ensures FailTimeOf(i, rounds) <= |rounds|
  {
    if rounds[0].at(i).Pending? && FirstReady(i, rounds) < |rounds| {
      assert rounds[FirstReady(i, rounds)] == rounds[1..][FirstReady(i, rounds[1..])];
    }
  }

  /** A first failure exists exactly if some leaf has a fail time of 0. */
  lemma {:induction false} FirstFailWins<E>(xs: seq<Id>, rounds: seq<Env<Result<E>>>)
    requires xs != [] && rounds != []
    ensures var k, f := FirstFail(xs, rounds[0]), FailTime(rounds);
      if k < |xs| then f(Winner(xs, f)) == 0 && xs[k] == Winner(xs, f) else f(Winner(xs, f)) > 0
  {
    var k, f := FirstFail(xs, rounds[0]), FailTime(rounds);
    var p := WinnerIsLeftmostLeast(xs, f);
    forall j | 0 <= j < |xs| ensures f(xs[j]) == 0 <==> Fails(rounds[0].at(xs[j])) { FailTimeStep(xs[j], rounds); }
    if k < |xs| { assert f(xs[k]) == 0; }
  }

  lemma LaterIs<R>(o: Outcome<R>)
    ensures Later(o) == if o.Running? then Running else Finished(o.time + 1, o.result)
  {
  }

  lemma TryFlatStep<E>(xs: seq<Id>, rounds: seq<Env<Result<E>>>)
    requires rounds != []
    ensures var k, rest := FirstFail(xs, rounds[0]), Waiting(xs, rounds[0]);
      TryFlat(xs, rounds) ==
        if k < |xs| then Finished(0, rounds[0].at(xs[k]).value)
        else if rest == [] then Finished(0, Ok) else Later(TryFlat(rest, rounds[1..]))
  {
  }

  /** `try_join!` gives the error of the leaf that fails first, the leftmost of those
      that fail in the same round; if none fails it is ready with the last leaf. */
  lemma {:induction false} TryGivesTheFirstError<E>(xs: seq<Id>, rounds: seq<Env<Result<E>>>)
    requires xs != []
    ensures var f := FailTime(rounds);
      var w := Winner(xs, f);
      TryFlat(xs, rounds) ==
        if f(w) < |rounds| then Finished(f(w), rounds[f(w)].at(w).value)
        else if MaxTime(xs, rounds) < |rounds| then Finished(MaxTime(xs, rounds), Ok)
        else Running
    decreases |rounds|
  {
    if rounds == [] { return; }
    hide *;
    TryFlatStep(xs, rounds);
    FirstFailWins(xs, rounds);
    var rest := Waiting(xs, rounds[0]);
    if FirstFail(xs, rounds[0]) == |xs| {
      LaterWinner(xs, rounds);
      MaxStep(xs, rounds);
      if rest != [] {
        TryGivesTheFirstError(rest, rounds[1..]);
        LaterIs(TryFlat(rest, rounds[1..]));
      }
    }
  }

  /** If nobody fails in this round, who fails first is decided among those who wait. */
  lemma LaterWinner<E>(xs: seq<Id>, rounds: seq<Env<Result<E>>>)
    requires xs != [] && rounds != [] && FirstFail(xs, rounds[0]) == |xs|
    ensures var f, g, rest := FailTime(rounds), FailTime(rounds[1..]), Waiting(xs, rounds[0]);
      var w := Winner(xs, f);
      if f(w) < |rounds| then rest != [] && Winner(rest, g) == w && f(w) == g(w) + 1
      else f(w) == |rounds| && (rest != [] ==> g(Winner(rest, g)) + 1 == |rounds|)
  {
    hide *;
    var f, g := FailTime(rounds), FailTime(rounds[1..]);
    FailTimesStep(xs, rounds);
    WinnerStep(xs, rounds[0], f, g, |rounds|);
    var w := Winner(xs, f);
    var j :| 0 <= j < |xs| && xs[j] == w;
  }

  lemma FailTimesStep<E>(xs: seq<Id>, rounds: seq<Env<Result<E>>>)
    requires rounds != [] && forall j :: 0 <= j < |xs| ==> !Fails(rounds[0].at(xs[j]))
    ensures var f, g := FailTime(rounds), FailTime(rounds[1..]);
      forall j :: 0 <= j < |xs| ==>
        if rounds[0].at(xs[j]).Pending? then f(xs[j]) == g(xs[j]) + 1 <= |rounds| else f(xs[j]) == |rounds|
  {
    forall j | 0 <= j < |xs| ensures var f, g := FailTime(rounds), FailTime(rounds[1..]);
      if rounds[0].at(xs[j]).Pending? then f(xs[j]) == g(xs[j]) + 1 <= |rounds| else f(xs[j]) == |rounds|
    {
      FailTimeStep(xs[j], rounds);
    }
  }
}
