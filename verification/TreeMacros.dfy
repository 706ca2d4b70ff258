/** What the join and select macros build: trees, and the patterns that take the
    trees' answers apart.  Leaf number k stands for the k-th expression. */
module TreeMacros {
  import opened Options
  import opened Combinators
  import opened Scan
  import J = JoinTrees
  import A = JoinAllTrees
  import S = SelectTrees

  // ----- join! and try_join! -----

  /** The expression list, which the builder empties. */
  class ExprList {
    var exprs: seq<Id>

    constructor (exprs: seq<Id>)
      ensures this.exprs == exprs
    {
      this.exprs := exprs;
    }

    method Pop() returns (e: Id)
      requires exprs != []
      modifies this
      ensures old(exprs) == exprs + [e]
    {
      e := exprs[|exprs| - 1];
      exprs := exprs[..|exprs| - 1];
    }

    method RemoveFirst() returns (e: Id)
      requires exprs != []
      modifies this
      ensures old(exprs) == [e] + exprs
    {
      e := exprs[0];
      exprs := exprs[1..];
    }
  }

  method BuildJoinTree(list: ExprList) returns (t: J.Tree)
    requires list.exprs != []
    modifies list
    ensures list.exprs == [] && t == JoinChain(old(list.exprs))
    decreases |list.exprs|
  {
    if |list.exprs| == 1 {
      var last := list.Pop();
      return J.Leaf(last);
    }
    var head := list.RemoveFirst();
    var tail := BuildJoinTree(list);
    return J.Node(J.Leaf(head), tail, Flags(false, false));
  }

  function JoinChain(xs: seq<Id>): J.Tree
    requires xs != []
  {
    if |xs| == 1 then J.Leaf(xs[0]) else J.Node(J.Leaf(xs[0]), JoinChain(xs[1..]), Flags(false, false))
  }

  lemma {:induction false} JoinChainIsFresh(xs: seq<Id>)
    requires xs != []
    ensures J.Live(JoinChain(xs)) && J.Open(JoinChain(xs)) == xs
  {
    if |xs| > 1 { JoinChainIsFresh(xs[1..]); }
  }

  /** `join!` is ready with the last of its expressions. */
  lemma JoinMacro(xs: seq<Id>, rounds: seq<Env<Unit>>)
    requires xs != []
    ensures J.JoinTime(JoinChain(xs), rounds) == MaxTime(xs, rounds)
  {
    JoinChainIsFresh(xs);
    J.JoinIsReadyWithItsLastLeaf(JoinChain(xs), rounds);
  }

  /** `try_join!` gives the first error in time, then in the order written; or is
      `Ok` with the last of its expressions. */
  lemma TryJoinMacro<E>(xs: seq<Id>, rounds: seq<Env<Result<E>>>)
    requires xs != []
    ensures var f := J.FailTime(rounds);
      var w := Winner(xs, f);
      J.TryOutcome(JoinChain(xs), rounds) ==
        if f(w) < |rounds| then Finished(f(w), rounds[f(w)].at(w).value)
        else if MaxTime(xs, rounds) < |rounds| then Finished(MaxTime(xs, rounds), Ok)
        else Running
  {
    JoinChainIsFresh(xs);
    J.TryIsFlat(JoinChain(xs), rounds);
    J.TryGivesTheFirstError(xs, rounds);
  }

  // ----- join_all! -----

  function JoinAllChain<V>(xs: seq<Id>): A.Tree<V>
    requires |xs| >= 2
  {
    var tail := if |xs| == 2 then A.Leaf(xs[1]) else JoinAllChain(xs[1..]);
    A.Node(A.Leaf(xs[0]), tail, Kept(None, None))
  }

  lemma {:induction false} JoinAllChainIsFresh<V>(xs: seq<Id>, f: Id -> V)
    requires |xs| >= 2
    ensures var t := JoinAllChain<V>(xs); A.Live(t) && A.Holds(t, f) && A.Open(t) == xs
  {
    if |xs| == 2 { assert xs == [xs[0]] + [xs[1]]; } else { JoinAllChainIsFresh(xs[1..], f); }
  }

  /** `__res_k`, or `(__res_k, rest)`. */
  datatype Pattern = Ident(k: nat) | PairOf(k: nat, rest: Pattern)

  function PatternFrom(i: nat, n: nat): Pattern
    requires i < n
    decreases n - i
  {
    if i + 1 == n then Ident(i) else PairOf(i, PatternFrom(i + 1, n))
  }

  /** The macro wraps the last identifier, from the inside out. */
  method JoinAllPattern(n: nat) returns (p: Pattern)
    requires n >= 1
    ensures p == PatternFrom(0, n)
  {
    p := Ident(n - 1);
    var i := n - 1;
    while i > 0
      invariant 0 <= i < n && p == PatternFrom(i, n)
    {
      i := i - 1;
      p := PairOf(i, p);
    }
  }

  /** What a pattern binds; `None` if it does not fit. */
  function Bind<V>(p: Pattern, v: A.Val<V>): Option<map<nat, A.Val<V>>> {
    match p
    case Ident(k) => Some(map[k := v])
    case PairOf(k, rest) =>
      if v.One? then None
      else match Bind(rest, v.snd)
        case None => None
        case Some(m) => Some(m[k := v.fst])
  }

  lemma {:induction false} PatternBinds<V>(xs: seq<Id>, f: Id -> V, i: nat)
    requires |xs| >= 2
    ensures var b := Bind(PatternFrom(i, i + |xs|), A.Expected(JoinAllChain<V>(xs), f));
      && b.Some? && (forall k :: k in b.value <==> i <= k < i + |xs|)
      && forall k :: 0 <= k < |xs| ==> b.value[i + k] == A.One(f(xs[k]))
  {
    var n := |xs|;
    var v := A.Expected(JoinAllChain<V>(xs), f);
    var rest := PatternFrom(i + 1, i + n);
    var head: A.Tree<V>, last: A.Tree<V> := A.Leaf(xs[0]), A.Leaf(xs[1]);
    assert A.Expected(head, f) == A.One(f(xs[0])) && A.Expected(last, f) == A.One(f(xs[1]));
    assert v.fst == A.One(f(xs[0]));
    if n == 2 {
      assert rest == Ident(i + 1) && v.snd == A.One(f(xs[1]));
    } else {
      PatternBinds(xs[1..], f, i + 1);
      assert v.snd == A.Expected(JoinAllChain<V>(xs[1..]), f);
      var b := Bind(rest, v.snd);
      assert forall k :: 0 < k < n ==> xs[k] == xs[1..][k - 1] && b.value[i + 1 + (k - 1)] == A.One(f(xs[1..][k - 1]));
    }
  }

  /** `join_all!` is ready with the last of its expressions, and then its pattern
      binds result number k to what expression number k answered. */
  lemma JoinAllMacro<V>(xs: seq<Id>, rounds: seq<Env<V>>, f: Id -> V)
    requires |xs| >= 2 && A.FirstAnswers(xs, rounds, f)
    ensures var o, k := A.AllOutcome(JoinAllChain<V>(xs), rounds), MaxTime(xs, rounds);
      if k < |rounds| then
        && o.Finished? && o.time == k && Bind(PatternFrom(0, |xs|), o.result).Some?
        && var m := Bind(PatternFrom(0, |xs|), o.result).value;
        (forall j :: j in m <==> 0 <= j < |xs|) && forall j :: 0 <= j < |xs| ==> m[j] == A.One(f(xs[j]))
      else o == Running
  {
    hide *;
    JoinAllChainIsFresh(xs, f);
    A.AllAnswersAreKept(JoinAllChain(xs), rounds, f);
    PatternBinds(xs, f, 0);
  }

  // ----- select! -----

  function SelectChain(xs: seq<Id>): S.Tree
    requires |xs| >= 2
  {
    S.Node(S.Leaf(xs[0]), if |xs| == 2 then S.Leaf(xs[1]) else SelectChain(xs[1..]))
  }

  lemma {:induction false} SelectChainLeaves(xs: seq<Id>)
    requires |xs| >= 2
    ensures S.Leaves(SelectChain(xs)) == xs
  {
    if |xs| == 2 { assert xs == [xs[0]] + [xs[1]]; } else { SelectChainLeaves(xs[1..]); }
  }

  /** `val`, `Either::Left(inner)` or `Either::Right(inner)`. */
  datatype Arm = Val | LeftOf(inner: Arm) | RightOf(inner: Arm)

  function Rights(k: nat, a: Arm): Arm {
    if k == 0 then a else RightOf(Rights(k - 1, a))
  }

  function ArmOf(i: nat, n: nat): Arm
    requires i < n
  {
    if i < n - 1 then Rights(i, LeftOf(Val)) else Rights(n - 1, Val)
  }

  /** The arms of a `select!` with `n` branches. */
  method SelectArms(n: nat) returns (arms: seq<Arm>)
    requires n >= 1
    ensures |arms| == n && forall i :: 0 <= i < n ==> arms[i] == ArmOf(i, n)
  {
    arms := [];
    for i := 0 to n
      invariant |arms| == i && forall k :: 0 <= k < i ==> arms[k] == ArmOf(k, n)
    {
      var arm, wraps := LeftOf(Val), i;
      if i == n - 1 { arm, wraps := Val, n - 1; }
      ghost var core := arm;
      for j := 0 to wraps
        invariant arm == Rights(j, core)
      {
        arm := RightOf(arm);
      }
      arms := arms + [arm];
    }
  }

  /** What `val` is bound to; `None` if the arm does not match. */
  function Match<V>(a: Arm, v: S.Val<V>): Option<S.Val<V>> {
    match a
    case Val => Some(v)
    case LeftOf(b) => if v.Inl? then Match(b, v.l) else None
    case RightOf(b) => if v.Inr? then Match(b, v.r) else None
  }

  /** Arm `i` matches exactly what leaf `i` gives, and binds its value. */
  lemma {:induction false} ArmMatchesItsLeaf<V>(xs: seq<Id>, i: nat, k: nat, v: V)
    requires |xs| >= 2 && i < |xs| && k < |xs|
    ensures S.Leaves(SelectChain(xs)) == xs
    ensures Match(ArmOf(i, |xs|), S.Wrapped(SelectChain(xs), k, v)) == if i == k then Some(S.One(v)) else None
  {
    SelectChainLeaves(xs);
    var w := S.Wrapped(SelectChain(xs), k, v);
    assert |S.Leaves(S.Leaf(xs[0]))| == 1;
    assert S.Wrapped(S.Leaf(xs[0]), 0, v) == S.One(v) && S.Wrapped(S.Leaf(xs[1]), 0, v) == S.One(v);
    if |xs| == 2 {
      assert w == if k == 0 then S.Inl(S.One(v)) else S.Inr(S.One(v));
      assert Rights(1, Val) == RightOf(Rights(0, Val));
    } else if k == 0 {
      assert w == S.Inl(S.One(v));
    } else {
      SelectChainLeaves(xs[1..]);
      assert w == S.Inr(S.Wrapped(SelectChain(xs[1..]), k - 1, v));
      if i > 0 {
        assert ArmOf(i, |xs|) == RightOf(ArmOf(i - 1, |xs| - 1));
        ArmMatchesItsLeaf(xs[1..], i - 1, k - 1, v);
      }
    }
  }

  /** When `select!` is ready, exactly one arm matches: that of the branch that was
      ready first, the one written first if several were; and it binds its value. */
  lemma SelectMacro<V>(xs: seq<Id>, rounds: seq<Env<V>>, p: nat)
    requires |xs| >= 2 && S.Wins(xs, rounds, p)
    ensures var o, k := S.SelectOutcome(SelectChain(xs), rounds), FirstReady(xs[p], rounds);
      if k < |rounds| then
        && o.Finished? && o.time == k
        && forall i :: 0 <= i < |xs| ==>
          Match(ArmOf(i, |xs|), o.result) == if i == p then Some(S.One(rounds[k].at(xs[p]).value)) else None
      else o == Running
  {
    SelectChainLeaves(xs);
    S.SelectGivesTheFirst(SelectChain(xs), rounds, p);
    var k := FirstReady(xs[p], rounds);
    if k < |rounds| {
      forall i | 0 <= i < |xs| ensures
        Match(ArmOf(i, |xs|), S.Wrapped(SelectChain(xs), p, rounds[k].at(xs[p]).value))
        == if i == p then Some(S.One(rounds[k].at(xs[p]).value)) else None
      {
        ArmMatchesItsLeaf(xs, i, p, rounds[k].at(xs[p]).value);
      }
    }
  }
}
