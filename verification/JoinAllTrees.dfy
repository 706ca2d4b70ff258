/** Trees of `JoinAll` collect the results of a flat list of leaves. */
module JoinAllTrees {
  import opened Options
  import opened Combinators
  import opened Scan

  /** Nested results, as the tree pairs them. */
  datatype Val<V> = One(v: V) | Pair(fst: Val<V>, snd: Val<V>)

  datatype Tree<V> = Leaf(i: Id) | Node(head: Tree<V>, tail: Tree<V>, kept: Kept<Val<V>, Val<V>>)

  datatype Polled<V> = Polled(tree: Tree<V>, answer: Poll<Val<V>>, log: seq<Id>)

  function Answer<V>(p: Poll<V>): Poll<Val<V>> {
    if p.Ready? then Ready(One(p.value)) else Pending
  }

  function After<V>(
      t: Tree<V>, s: Stepped<Kept<Val<V>, Val<V>>, (Val<V>, Val<V>)>, ph: Polled<V>, pt: Polled<V>): Polled<V>
    requires t.Node?
  {
    Polled(Node(if s.asksHead then ph.tree else t.head, if s.asksTail then pt.tree else t.tail, s.state),
      if s.answer.Ready? then Ready(Pair(s.answer.value.0, s.answer.value.1)) else Pending,
      (if s.asksHead then ph.log else []) + (if s.asksTail then pt.log else []))
  }

  function PollAll<V>(t: Tree<V>, env: Env<V>): Polled<V> {
    match t
    case Leaf(i) => Polled(t, Answer(env.at(i)), [i])
    case Node(head, tail, kept) =>
      var ph, pt := PollAll(head, env), PollAll(tail, env);
      After(t, JoinAllStep(kept, ph.answer, pt.answer), ph, pt)
  }

  function Open<V>(t: Tree<V>): seq<Id> {
    match t
    case Leaf(i) => [i]
    case Node(head, tail, k) => (if k.head.Some? then [] else Open(head)) + (if k.tail.Some? then [] else Open(tail))
  }

  predicate Live<V>(t: Tree<V>) {
    t.Node? ==>
      && !(t.kept.head.Some? && t.kept.tail.Some?)
      && (t.kept.head.None? ==> Live(t.head)) && (t.kept.tail.None? ==> Live(t.tail))
  }

  /** The results `f`, paired as the tree is built. */
  function Expected<V>(t: Tree<V>, f: Id -> V): Val<V> {
    match t
    case Leaf(i) => One(f(i))
    case Node(head, tail, _) => Pair(Expected(head, f), Expected(tail, f))
  }

  /** What the tree has kept so far are the results `f`. */
  ghost predicate Holds<V>(t: Tree<V>, f: Id -> V) {
    t.Node? ==>
      && (if t.kept.head.Some? then t.kept.head.value == Expected(t.head, f) else Holds(t.head, f))
      && (if t.kept.tail.Some? then t.kept.tail.value == Expected(t.tail, f) else Holds(t.tail, f))
  }

  /** What an open leaf answers is its result in `f`. */
  ghost predicate Agree<V>(xs: seq<Id>, env: Env<V>, f: Id -> V) {
    forall j :: 0 <= j < |xs| && env.at(xs[j]).Ready? ==> env.at(xs[j]).value == f(xs[j])
  }

  /** One poll of the part `p`, against a scan of its open leaves `xs`. */
  ghost predicate Collects<V>(t: Tree<V>, p: Polled<V>, xs: seq<Id>, env: Env<V>, f: Id -> V) {
    var rest := Waiting(xs, env);
    && p.log == xs && Expected(p.tree, f) == Expected(t, f)
    && (if rest == [] then p.answer == Ready(Expected(t, f))
        else p.answer == Pending && Live(p.tree) && Holds(p.tree, f) && Open(p.tree) == rest)
  }

  lemma {:induction false} AllRound<V>(t: Tree<V>, env: Env<V>, f: Id -> V)
    requires Live(t) && Holds(t, f) && Agree(Open(t), env, f)
    ensures Collects(t, PollAll(t, env), Open(t), env, f)
  {
    match t
    case Leaf(i) => LeafCollects(t, env, f);
    case Node(head, tail, k) =>
      var hs, ts := if k.head.Some? then [] else Open(head), if k.tail.Some? then [] else Open(tail);
      var ph, pt := PollAll(head, env), PollAll(tail, env);
      AgreeParts(hs, ts, env, f);
      if k.head.None? { AllRound(head, env, f); }
      if k.tail.None? { AllRound(tail, env, f); }
      hide PollAll, Collects;
      NodeCollects(t, ph, pt, hs, ts, env, f);
  }

  lemma AgreeParts<V>(hs: seq<Id>, ts: seq<Id>, env: Env<V>, f: Id -> V)
    requires Agree(hs + ts, env, f)
    ensures Agree(hs, env, f) && Agree(ts, env, f)
  {
    forall j | 0 <= j < |hs| && env.at(hs[j]).Ready? ensures env.at(hs[j]).value == f(hs[j]) {
      assert (hs + ts)[j] == hs[j];
    }
    forall j | 0 <= j < |ts| && env.at(ts[j]).Ready? ensures env.at(ts[j]).value == f(ts[j]) {
      assert (hs + ts)[|hs| + j] == ts[j];
    }
  }

  lemma LeafCollects<V>(t: Tree<V>, env: Env<V>, f: Id -> V)
    requires t.Leaf? && Agree([t.i], env, f)
    ensures Collects(t, Polled(t, Answer(env.at(t.i)), [t.i]), [t.i], env, f)
  {
    var xs := [t.i];
    assert xs[0] == t.i && xs[1..] == [];
    assert Waiting(xs, env) == if env.at(t.i).Ready? then [] else xs;
  }

  lemma NodeCollects<V>(t: Tree<V>, ph: Polled<V>, pt: Polled<V>, hs: seq<Id>, ts: seq<Id>, env: Env<V>, f: Id -> V)
    requires t.Node? && Live(t) && Holds(t, f)
    requires if t.kept.head.Some? then hs == [] else Collects(t.head, ph, hs, env, f)
    requires if t.kept.tail.Some? then ts == [] else Collects(t.tail, pt, ts, env, f)
    ensures Collects(t, After(t, JoinAllStep(t.kept, ph.answer, pt.answer), ph, pt), hs + ts, env, f)
  {
    NoneWait(env);
    hide Waiting;
    WaitingOfBoth(hs, ts, env);
    var r := After(t, JoinAllStep(t.kept, ph.answer, pt.answer), ph, pt);
    assert r.log == hs + ts;
    assert Expected(r.tree, f) == Expected(t, f);
  }

  function AllOutcome<V>(t: Tree<V>, rounds: seq<Env<V>>): Outcome<Val<V>>
    decreases |rounds|
  {
    if rounds == [] then Running
    else
      var p := PollAll(t, rounds[0]);
      if p.answer.Ready? then Finished(0, p.answer.value) else Later(AllOutcome(p.tree, rounds[1..]))
  }

  /** `f` gives what each leaf answers when it first does. */
  ghost predicate FirstAnswers<V>(xs: seq<Id>, rounds: seq<Env<V>>, f: Id -> V) {
    forall j :: 0 <= j < |xs| ==>
      var k := FirstReady(xs[j], rounds);
      k < |rounds| ==> rounds[k].at(xs[j]).value == f(xs[j])
  }

  lemma AnswersStep<V>(xs: seq<Id>, rounds: seq<Env<V>>, f: Id -> V)
    requires rounds != [] && FirstAnswers(xs, rounds, f)
    ensures Agree(xs, rounds[0], f) && FirstAnswers(Waiting(xs, rounds[0]), rounds[1..], f)
  {
    var rest := Waiting(xs, rounds[0]);
    forall j | 0 <= j < |rest| ensures
      var k := FirstReady(rest[j], rounds[1..]);
      k < |rounds[1..]| ==> rounds[1..][k].at(rest[j]).value == f(rest[j])
    {
      WaitingHas(xs, rounds[0], rest[j]);
      var i :| 0 <= i < |xs| && xs[i] == rest[j];
      var k := FirstReady(xs[i], rounds);
      assert k == 1 + FirstReady(rest[j], rounds[1..]);
    }
  }

  lemma {:induction false} LiveIsOpen<V>(t: Tree<V>)
    requires Live(t)
    ensures Open(t) != []
  {
    match t
    case Leaf(_) =>
    case Node(head, tail, k) => if k.head.Some? { LiveIsOpen(tail); } else { LiveIsOpen(head); }
  }

  /** The tree is ready with its last leaf, and its answer holds for every leaf
      what that leaf answered when it was first ready. */
  lemma {:induction false} AllAnswersAreKept<V>(t: Tree<V>, rounds: seq<Env<V>>, f: Id -> V)
    requires Live(t) && Holds(t, f) && FirstAnswers(Open(t), rounds, f)
    ensures var k := MaxTime(Open(t), rounds);
      AllOutcome(t, rounds) == if k < |rounds| then Finished(k, Expected(t, f)) else Running
    decreases |rounds|
  {
    LiveIsOpen(t);
    if rounds == [] { return; }
    hide Waiting, MaxTime, PollAll, FirstAnswers, Live, Holds, Agree;
    AnswersStep(Open(t), rounds, f);
    AllRound(t, rounds[0], f);
    MaxStep(Open(t), rounds);
    var p := PollAll(t, rounds[0]);
    if p.answer.Pending? { AllAnswersAreKept(p.tree, rounds[1..], f); }
  }

  function AllLog<V>(t: Tree<V>, rounds: seq<Env<V>>, k: nat): seq<Id>
    requires k < |rounds|
    decreases |rounds|
  {
    var p := PollAll(t, rounds[0]);
    if k == 0 then p.log else if p.answer.Ready? then [] else AllLog(p.tree, rounds[1..], k - 1)
  }

  lemma AllLogStep<V>(t: Tree<V>, rounds: seq<Env<V>>, k: nat)
    requires k < |rounds|
    ensures var p := PollAll(t, rounds[0]);
      AllLog(t, rounds, k)
      == if k == 0 then p.log else if p.answer.Ready? then [] else AllLog(p.tree, rounds[1..], k - 1)
  {
  }

  /** The same leaves are polled in each round as by a join. */
  lemma {:induction false} AllPollsNoLeafAfterReady<V>(t: Tree<V>, rounds: seq<Env<V>>, f: Id -> V, k: nat)
    requires Live(t) && Holds(t, f) && FirstAnswers(Open(t), rounds, f) && k < |rounds|
    ensures AllLog(t, rounds, k) == NotBefore(Open(t), rounds, k)
    decreases |rounds|
  {
    hide *;
    AnswersStep(Open(t), rounds, f);
    AllRound(t, rounds[0], f);
    AllLogStep(t, rounds, k);
    var p := PollAll(t, rounds[0]);
    AllRoundLog(t, p, Open(t), rounds[0], f);
    if k == 0 {
      AllFromTheStart(Open(t), rounds);
    } else {
      LateStep(Open(t), rounds, k - 1);
      NoneLate(rounds[1..], k - 1);
      if p.answer.Pending? { AllPollsNoLeafAfterReady(p.tree, rounds[1..], f, k - 1); }
    }
  }

  lemma AllRoundLog<V>(t: Tree<V>, p: Polled<V>, xs: seq<Id>, env: Env<V>, f: Id -> V)
    requires Collects(t, p, xs, env, f)
    ensures p.log == xs && (p.answer.Ready? <==> Waiting(xs, env) == [])
    ensures p.answer.Pending? ==> Live(p.tree) && Holds(p.tree, f) && Open(p.tree) == Waiting(xs, env)
  {
  }
}
