/** Trees of `Select` mean the first of a flat list of leaves to be ready. */
module SelectTrees {
  import opened Combinators
  import opened Scan

  datatype Tree = Leaf(i: Id) | Node(head: Tree, tail: Tree)

  /** Nested `Either`s, as the tree builds them. */
  datatype Val<V> = One(v: V) | Inl(l: Val<V>) | Inr(r: Val<V>)

  datatype Polled<V> = Polled(answer: Poll<Val<V>>, log: seq<Id>)

  function Answer<V>(p: Poll<V>): Poll<Val<V>> {
    if p.Ready? then Ready(One(p.value)) else Pending
  }

  function Lift<V>(p: Poll<Either<Val<V>, Val<V>>>): Poll<Val<V>> {
    match p
    case Pending => Pending
    case Ready(Left(v)) => Ready(Inl(v))
    case Ready(Right(v)) => Ready(Inr(v))
  }

  /** What the node makes of its parts' polls. */
  function Both<V>(ph: Polled<V>, pt: Polled<V>): Polled<V> {
    var s := SelectStep(ph.answer, pt.answer);
    Polled(Lift(s.answer), ph.log + if s.asksTail then pt.log else [])
  }

  function PollSelect<V>(t: Tree, env: Env<V>): Polled<V> {
    match t
    case Leaf(i) => Polled(Answer(env.at(i)), [i])
    case Node(head, tail) => Both(PollSelect(head, env), PollSelect(tail, env))
  }

  function Leaves(t: Tree): (xs: seq<Id>)
    ensures xs != []
  {
    match t
    case Leaf(i) => [i]
    case Node(head, tail) => Leaves(head) + Leaves(tail)
  }

  /** The value `v` of the leaf at place `k`, wrapped on the way up. */
  function Wrapped<V>(t: Tree, k: nat, v: V): Val<V>
    requires k < |Leaves(t)|
  {
    match t
    case Leaf(_) => One(v)
    case Node(head, tail) =>
      if k < |Leaves(head)| then Inl(Wrapped(head, k, v)) else Inr(Wrapped(tail, k - |Leaves(head)|, v))
  }

  /** The first leaf that is ready, or the length. */
  function FirstHit<V>(xs: seq<Id>, env: Env<V>): (k: nat)
    ensures k <= |xs| && (k < |xs| ==> env.at(xs[k]).Ready?) && forall j :: 0 <= j < k ==> env.at(xs[j]).Pending?
  {
    if xs == [] || env.at(xs[0]).Ready? then 0 else 1 + FirstHit(xs[1..], env)
  }

  lemma {:induction false} FirstHitOfBoth<V>(xs: seq<Id>, ys: seq<Id>, env: Env<V>)
    ensures FirstHit(xs + ys, env) == if FirstHit(xs, env) < |xs| then FirstHit(xs, env) else |xs| + FirstHit(ys, env)
  {
    if xs == [] {
      assert xs + ys == ys;
    } else {
      FirstHitOfBoth(xs[1..], ys, env);
      assert (xs + ys)[1..] == xs[1..] + ys;
    }
  }

  /** One poll of the tree, against a scan of its leaves. */
  ghost predicate Scans<V>(t: Tree, p: Polled<V>, env: Env<V>) {
    var xs, k := Leaves(t), FirstHit(Leaves(t), env);
    if k < |xs| then p.answer == Ready(Wrapped(t, k, env.at(xs[k]).value)) && p.log == xs[..k + 1]
    else p.answer == Pending && p.log == xs
  }

  /** A poll stops at the first leaf that is ready. */
  lemma {:induction false} SelectRound<V>(t: Tree, env: Env<V>)
    ensures Scans(t, PollSelect(t, env), env)
  {
    match t
    case Leaf(i) =>
      assert [i][1..] == [] && [i][..1] == [i];
      assert FirstHit([i], env) == if env.at(i).Ready? then 0 else 1;
    case Node(head, tail) =>
      SelectRound(head, env);
      SelectRound(tail, env);
      var ph, pt := PollSelect(head, env), PollSelect(tail, env);
      hide Scans;
      assert PollSelect(t, env) == Both(ph, pt);
      NodeScans(t, ph, pt, env);
  }

  lemma LeftHits<V>(t: Tree, ph: Polled<V>, pt: Polled<V>, env: Env<V>)
    requires t.Node? && Scans(t.head, ph, env) && FirstHit(Leaves(t.head), env) < |Leaves(t.head)|
    ensures Scans(t, Both(ph, pt), env)
  {
    var hs, ts := Leaves(t.head), Leaves(t.tail);
    assert Leaves(t) == hs + ts;
    hide Leaves, FirstHit, Lift, Wrapped, SelectStep;
    FirstHitOfBoth(hs, ts, env);
    var k := FirstHit(hs, env);
    PrefixOfLeft(hs, ts, k);
    LiftsLeft(t, ph.answer, pt.answer, k, env.at(hs[k]).value);
  }

  lemma RightHits<V>(t: Tree, ph: Polled<V>, pt: Polled<V>, env: Env<V>)
    requires t.Node? && Scans(t.head, ph, env) && Scans(t.tail, pt, env)
    requires FirstHit(Leaves(t.head), env) == |Leaves(t.head)| && FirstHit(Leaves(t.tail), env) < |Leaves(t.tail)|
    ensures Scans(t, Both(ph, pt), env)
  {
    var hs, ts := Leaves(t.head), Leaves(t.tail);
    assert Leaves(t) == hs + ts;
    hide Leaves, FirstHit, Lift, Wrapped, SelectStep;
    FirstHitOfBoth(hs, ts, env);
    var j := FirstHit(ts, env);
    PrefixOfRight(hs, ts, j);
    LiftsRight(t, ph.answer, pt.answer, j, env.at(ts[j]).value);
  }

  lemma NobodyHits<V>(t: Tree, ph: Polled<V>, pt: Polled<V>, env: Env<V>)
    requires t.Node? && Scans(t.head, ph, env) && Scans(t.tail, pt, env)
    requires FirstHit(Leaves(t.head), env) == |Leaves(t.head)| && FirstHit(Leaves(t.tail), env) == |Leaves(t.tail)|
    ensures Scans(t, Both(ph, pt), env)
  {
    var hs, ts := Leaves(t.head), Leaves(t.tail);
    assert Leaves(t) == hs + ts;
    hide Leaves, FirstHit, Lift, Wrapped, SelectStep;
    FirstHitOfBoth(hs, ts, env);
    LiftsNone(ph.answer, pt.answer);
  }

  lemma NodeScans<V>(t: Tree, ph: Polled<V>, pt: Polled<V>, env: Env<V>)
    requires t.Node? && Scans(t.head, ph, env) && Scans(t.tail, pt, env)
    ensures Scans(t, Both(ph, pt), env)
  {
    hide *;
    if FirstHit(Leaves(t.head), env) < |Leaves(t.head)| {
      LeftHits(t, ph, pt, env);
    } else if FirstHit(Leaves(t.tail), env) < |Leaves(t.tail)| {
      RightHits(t, ph, pt, env);
    } else {
      NobodyHits(t, ph, pt, env);
    }
  }

  lemma PrefixOfLeft(hs: seq<Id>, ts: seq<Id>, k: nat)
    requires k < |hs|
    ensures (hs + ts)[..k + 1] == hs[..k + 1] == hs[..k + 1] + [] && (hs + ts)[k] == hs[k]
  {
  }

  lemma PrefixOfRight(hs: seq<Id>, ts: seq<Id>, j: nat)
    requires j < |ts|
    ensures (hs + ts)[..|hs| + j + 1] == hs + ts[..j + 1] && (hs + ts)[|hs| + j] == ts[j]
  {
  }

  lemma LiftsLeft<V>(t: Tree, h: Poll<Val<V>>, r: Poll<Val<V>>, k: nat, v: V)
    requires t.Node? && k < |Leaves(t.head)| && h == Ready(Wrapped(t.head, k, v))
    ensures k < |Leaves(t)| && Lift(SelectStep(h, r).answer) == Ready(Wrapped(t, k, v)) && !SelectStep(h, r).asksTail
  {
  }

  lemma LiftsRight<V>(t: Tree, h: Poll<Val<V>>, r: Poll<Val<V>>, j: nat, v: V)
    requires t.Node? && j < |Leaves(t.tail)| && h == Pending && r == Ready(Wrapped(t.tail, j, v))
    ensures |Leaves(t.head)| + j < |Leaves(t)|
    ensures Lift(SelectStep(h, r).answer) == Ready(Wrapped(t, |Leaves(t.head)| + j, v)) && SelectStep(h, r).asksTail
  {
  }

  lemma LiftsNone<V>(h: Poll<Val<V>>, r: Poll<Val<V>>)
    requires h == Pending && r == Pending
    ensures Lift(SelectStep(h, r).answer) == Pending && SelectStep(h, r).asksTail
  {
  }

  function SelectOutcome<V>(t: Tree, rounds: seq<Env<V>>): Outcome<Val<V>>
    decreases |rounds|
  {
    if rounds == [] then Running
    else
      var p := PollSelect(t, rounds[0]);
      if p.answer.Ready? then Finished(0, p.answer.value) else Later(SelectOutcome(t, rounds[1..]))
  }

  function ReadyTime<V>(rounds: seq<Env<V>>): Id -> nat { (i: Id) => FirstReady(i, rounds) }

  /** The place of the leaf that wins: the first round, and the leftmost in it. */
  ghost predicate Wins<V>(xs: seq<Id>, rounds: seq<Env<V>>, p: nat) {
    && p < |xs|
    && (forall q :: 0 <= q < |xs| ==> FirstReady(xs[p], rounds) <= FirstReady(xs[q], rounds))
    && (forall q :: 0 <= q < p ==> FirstReady(xs[p], rounds) < FirstReady(xs[q], rounds))
  }

  /** The tree is ready in the round in which the first of its leaves is, with the
      value of the leftmost leaf of that round. */
  lemma {:induction false} SelectGivesTheFirst<V>(t: Tree, rounds: seq<Env<V>>, p: nat)
    requires Wins(Leaves(t), rounds, p)
    ensures var xs := Leaves(t); var k := FirstReady(xs[p], rounds);
      SelectOutcome(t, rounds)
      == if k < |rounds| then Finished(k, Wrapped(t, p, rounds[k].at(xs[p]).value)) else Running
    decreases |rounds|
  {
    if rounds == [] { return; }
    var xs := Leaves(t);
    SelectRound(t, rounds[0]);
    var h := FirstHit(xs, rounds[0]);
    if h < |xs| {
      assert FirstReady(xs[h], rounds) == 0;
      assert FirstReady(xs[p], rounds) == 0;
    } else {
      forall q | 0 <= q < |xs| ensures FirstReady(xs[q], rounds) == 1 + FirstReady(xs[q], rounds[1..]) {
        assert rounds[0].at(xs[q]).Pending?;
      }
      SelectGivesTheFirst(t, rounds[1..], p);
    }
  }

  /** There is always exactly one winner. */
  lemma SomebodyWins<V>(xs: seq<Id>, rounds: seq<Env<V>>) returns (p: nat)
    requires xs != []
    ensures Wins(xs, rounds, p)
    ensures forall q :: Wins(xs, rounds, q) ==> q == p
  {
    p := WinnerIsLeftmostLeast(xs, ReadyTime(rounds));
    var f := ReadyTime(rounds);
    assert forall q :: 0 <= q < |xs| ==> f(xs[q]) == FirstReady(xs[q], rounds);
  }
}
