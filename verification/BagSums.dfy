/** Sums of multisets: how a change at one or two places changes the whole. */
module BagSums {

  function Sum<T>(bags: seq<multiset<T>>): multiset<T> {
    if bags == [] then multiset{} else Sum(bags[..|bags| - 1]) + bags[|bags| - 1]
  }

  lemma {:induction false} SumUpdate<T>(bags: seq<multiset<T>>, i: nat, b: multiset<T>)
    requires i < |bags|
    ensures Sum(bags[i := b]) + bags[i] == Sum(bags) + b
  {
    var m := |bags| - 1;
    if i == m {
      assert bags[i := b][..m] == bags[..m];
    } else {
      assert bags[i := b][..m] == bags[..m][i := b];
      SumUpdate(bags[..m], i, b);
      AddBoth(Sum(bags[..m][i := b]), bags[i], Sum(bags[..m]), b, bags[m]);
    }
  }

  lemma {:induction false} SumOfEmpty<T>(bags: seq<multiset<T>>)
    requires forall i :: 0 <= i < |bags| ==> bags[i] == multiset{}
    ensures Sum(bags) == multiset{}
  {
    if bags != [] { SumOfEmpty(bags[..|bags| - 1]); }
  }

  lemma AddBoth<T>(x: multiset<T>, p: multiset<T>, y: multiset<T>, q: multiset<T>, z: multiset<T>)
    requires x + p == y + q
    ensures (x + z) + p == (y + z) + q
  {
    assert (x + z) + p == (x + p) + z;
    assert (y + z) + q == (y + q) + z;
  }

  /** A bag is part of the sum. */
  lemma {:induction false} SumContains<T>(bags: seq<multiset<T>>, i: nat)
    requires i < |bags|
    ensures bags[i] <= Sum(bags)
  {
    if i < |bags| - 1 { SumContains(bags[..|bags| - 1], i); }
  }

  /** So are two bags at different places together. */
  lemma SumContainsTwo<T>(bags: seq<multiset<T>>, i: nat, j: nat)
    requires i < |bags| && j < |bags| && i != j
    ensures bags[i] + bags[j] <= Sum(bags)
  {
    SumUpdate(bags, i, multiset{});
    SumContains(bags[i := multiset{}], j);
    assert Sum(bags[i := multiset{}]) + bags[i] == Sum(bags);
  }

  lemma SumUpdateTwo<T>(bags: seq<multiset<T>>, i: nat, b: multiset<T>, j: nat, d: multiset<T>)
    requires i < |bags| && j < |bags| && i != j && bags[i] + bags[j] == b + d
    ensures Sum(bags[i := b][j := d]) == Sum(bags)
  {
    SumUpdate(bags, i, b);
    SumUpdate(bags[i := b], j, d);
    SumsEqual(Sum(bags), bags[i], bags[j], Sum(bags[i := b]), b, d, Sum(bags[i := b][j := d]));
  }

  lemma SumsEqual<T>(s: multiset<T>, x: multiset<T>, y: multiset<T>, s': multiset<T>,
                  b: multiset<T>, d: multiset<T>, s'': multiset<T>)
    requires s' + x == s + b && s'' + y == s' + d && x + y == b + d
    ensures s'' == s
  {
    forall p ensures s''[p] == s[p] {
      assert (s' + x)[p] == (s + b)[p] && (s'' + y)[p] == (s' + d)[p] && (x + y)[p] == (b + d)[p];
    }
  }

  lemma MoveAcross<T>(a: multiset<T>, x: multiset<T>, l: multiset<T>, b: multiset<T>, y: multiset<T>, k: multiset<T>)
    requires a + x == b + y && y + k == x + l
    ensures a + k == b + l
  {
    forall p ensures (a + k)[p] == (b + l)[p] {
      assert (a + x)[p] == (b + y)[p] && (y + k)[p] == (x + l)[p];
    }
  }

  lemma SplitBag<T>(xs: seq<T>, k: nat)
    requires k <= |xs|
    ensures multiset(xs[..k]) + multiset(xs[k..]) == multiset(xs)
  {
    assert xs[..k] + xs[k..] == xs;
  }
}
