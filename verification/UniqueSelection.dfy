/**
 Selecting the one element of a list that applies, where an element that fails
 validation refuses the whole list: what the walk returns and how far its result
 depends on the order.
 */
module UniqueSelection {

  datatype Selection<T> = Exact(value: T) | Uncovered | Ambiguous | Invalid

  predicate All<T>(xs: seq<T>, holds: T -> bool) {
    forall i :: 0 <= i < |xs| ==> holds(xs[i])
  }

  function Filter<T>(xs: seq<T>, holds: T -> bool): (r: seq<T>)
    ensures All(r, holds)
  {
    if xs == [] then []
    else
      var init := Filter(xs[..|xs| - 1], holds);
      if holds(xs[|xs| - 1]) then init + [xs[|xs| - 1]] else init
  }

  /** How many elements precede the first invalid one. */
  function ValidCount<T>(xs: seq<T>, valid: T -> bool): (n: nat)
    ensures n <= |xs| && All(xs[..n], valid) && (n < |xs| ==> !valid(xs[n]))
  {
    if xs == [] then 0
    else
      var init := ValidCount(xs[..|xs| - 1], valid);
      assert xs[..|xs| - 1][..init] == xs[..init];
      if init < |xs| - 1 then init
      else if valid(xs[|xs| - 1]) then |xs|
      else |xs| - 1
  }

  /** The walk ends at the first invalid element or at the second one that applies. */
  function Select<T>(xs: seq<T>, valid: T -> bool, applies: T -> bool): Selection<T> {
    var matched := Filter(xs[..ValidCount(xs, valid)], applies);
    if |matched| >= 2 then Ambiguous
    else if ValidCount(xs, valid) < |xs| then Invalid
    else if |matched| == 1 then Exact(matched[0])
    else Uncovered
  }

  // ----- The walk -----

  lemma FilterAppend<T>(xs: seq<T>, i: nat, holds: T -> bool)
    requires i < |xs|
    ensures Filter(xs[..i + 1], holds) == Filter(xs[..i], holds) + (if holds(xs[i]) then [xs[i]] else [])
  {
    assert xs[..i + 1][..i] == xs[..i];
  }

  lemma {:induction false} FilterGrows<T>(xs: seq<T>, i: nat, j: nat, holds: T -> bool)
    requires i <= j <= |xs|
    ensures Filter(xs[..i], holds) <= Filter(xs[..j], holds)
    decreases j - i
  {
    if i < j {
      FilterAppend(xs, j - 1, holds);
      FilterGrows(xs, i, j - 1, holds);
    }
  }

  lemma ValidReach<T>(xs: seq<T>, i: nat, valid: T -> bool)
    requires i <= |xs| && All(xs[..i], valid)
    ensures i <= ValidCount(xs, valid)
  {
    var n := ValidCount(xs, valid);
    if n < |xs| {
      assert forall k :: 0 <= k < i ==> valid(xs[..i][k]) && xs[..i][k] == xs[k];
    }
  }

  lemma ValidStop<T>(xs: seq<T>, i: nat, valid: T -> bool)
    requires i < |xs| && All(xs[..i], valid) && !valid(xs[i])
    ensures ValidCount(xs, valid) == i
  {
    var n := ValidCount(xs, valid);
    ValidReach(xs, i, valid);
    assert forall k :: 0 <= k < n ==> valid(xs[..n][k]) && xs[..n][k] == xs[k];
  }

  lemma AllValidCount<T>(xs: seq<T>, valid: T -> bool)
    ensures ValidCount(xs, valid) == |xs| <==> All(xs, valid)
  {
    assert xs[..|xs|] == xs;
    if All(xs, valid) {
      ValidReach(xs, |xs|, valid);
    }
  }

  /** The walk stops at an invalid element while at most one applied before it. */
  lemma StopsInvalid<T>(xs: seq<T>, i: nat, valid: T -> bool, applies: T -> bool)
    requires i < |xs| && All(xs[..i], valid) && !valid(xs[i]) && |Filter(xs[..i], applies)| <= 1
    ensures Select(xs, valid, applies) == Invalid
  {
    ValidStop(xs, i, valid);
  }

  /** The walk stops at the second element that applies. */
  lemma StopsAmbiguous<T>(xs: seq<T>, i: nat, valid: T -> bool, applies: T -> bool)
    requires i <= |xs| && All(xs[..i], valid) && |Filter(xs[..i], applies)| >= 2
    ensures Select(xs, valid, applies) == Ambiguous
  {
    ValidReach(xs, i, valid);
    FilterGrows(xs, i, ValidCount(xs, valid), applies);
  }

  /** The walk reaches the end. */
  lemma ReachesEnd<T>(xs: seq<T>, valid: T -> bool, applies: T -> bool)
    requires All(xs, valid) && |Filter(xs, applies)| <= 1
    ensures Select(xs, valid, applies) == if Filter(xs, applies) == [] then Uncovered else Exact(Filter(xs, applies)[0])
  {
    AllValidCount(xs, valid);
    assert xs[..|xs|] == xs;
  }

  /** The selection loop, with its early returns. */
  method Resolve<T>(xs: seq<T>, valid: T -> bool, applies: T -> bool) returns (r: Selection<T>)
    ensures r == Select(xs, valid, applies)
  {
    var matched := [];
    for i := 0 to |xs|
      invariant All(xs[..i], valid) && |matched| <= 1 && Filter(xs[..i], applies) == matched
    {
      FilterAppend(xs, i, applies);
      if !valid(xs[i]) {
        StopsInvalid(xs, i, valid, applies);
        return Invalid;
      }
      assert forall k :: 0 <= k < i ==> xs[..i + 1][k] == xs[..i][k];
      if !applies(xs[i]) {
        continue;
      }
      if |matched| > 0 {
        StopsAmbiguous(xs, i + 1, valid, applies);
        return Ambiguous;
      }
      matched := [xs[i]];
    }
    assert xs[..|xs|] == xs;
    ReachesEnd(xs, valid, applies);
    r := if |matched| > 0 then Exact(matched[0]) else Uncovered;
  }

  // ----- What the selection means -----

  /** Exact: every element is valid and one alone applies; uncovered: every element is valid and none applies. */
  lemma ExactIff<T>(xs: seq<T>, valid: T -> bool, applies: T -> bool)
    ensures Select(xs, valid, applies).Exact? <==> All(xs, valid) && |Filter(xs, applies)| == 1
    ensures Select(xs, valid, applies).Exact? ==> Select(xs, valid, applies).value == Filter(xs, applies)[0]
    ensures Select(xs, valid, applies).Uncovered? <==> All(xs, valid) && Filter(xs, applies) == []
  {
    AllValidCount(xs, valid);
    assert xs[..|xs|] == xs;
  }

  /** The element exactly selected is valid among valid ones, occurs once, and nothing else applies. */
  lemma ExactIsUnique<T(!new)>(xs: seq<T>, valid: T -> bool, applies: T -> bool)
    requires Select(xs, valid, applies).Exact?
    ensures var x := Select(xs, valid, applies).value;
            && x in xs && valid(x) && applies(x) && multiset(xs)[x] == 1
            && forall y :: y in xs && applies(y) ==> y == x
  {
    var x := Select(xs, valid, applies).value;
    ExactIff(xs, valid, applies);
    FilterCounts(xs, applies, x);
    assert Filter(xs, applies) == [x];
    assert x in multiset(xs);
    forall y | y in xs && applies(y) ensures y == x {
      FilterCounts(xs, applies, y);
      assert y in multiset(xs);
      assert y in multiset(Filter(xs, applies));
    }
  }

  /** Conversely, among valid elements the only occurrence that applies is selected. */
  lemma UniqueIsExact<T(!new)>(xs: seq<T>, valid: T -> bool, applies: T -> bool, x: T)
    requires forall y :: y in xs ==> valid(y)
    requires applies(x) && multiset(xs)[x] == 1 && forall y :: y in xs && applies(y) ==> y == x
    ensures Select(xs, valid, applies) == Exact(x)
  {
    var matched := multiset(Filter(xs, applies));
    forall y ensures matched[y] == multiset{x}[y] {
      FilterCounts(xs, applies, y);
      assert y in multiset(xs) <==> y in xs;
    }
    assert matched == multiset{x};
    assert |matched| == |Filter(xs, applies)|;
    assert Filter(xs, applies)[0] in matched;
    ExactIff(xs, valid, applies);
  }

  // ----- Order -----

  predicate Permutation<T(==)>(a: seq<T>, b: seq<T>) { multiset(a) == multiset(b) }

  lemma {:induction false} FilterCounts<T>(xs: seq<T>, holds: T -> bool, x: T)
    ensures multiset(Filter(xs, holds))[x] == if holds(x) then multiset(xs)[x] else 0
  {
    if xs != [] {
      var init, last := xs[..|xs| - 1], xs[|xs| - 1];
      FilterCounts(init, holds, x);
      assert xs == init + [last];
      assert multiset(xs) == multiset(init) + multiset{last};
    }
  }

  lemma FilterPermutes<T(!new)>(a: seq<T>, b: seq<T>, holds: T -> bool)
    requires Permutation(a, b)
    ensures Permutation(Filter(a, holds), Filter(b, holds))
    ensures |Filter(a, holds)| == |Filter(b, holds)|
  {
    var ma, mb := multiset(Filter(a, holds)), multiset(Filter(b, holds));
    forall x ensures ma[x] == mb[x] {
      FilterCounts(a, holds, x);
      FilterCounts(b, holds, x);
    }
    assert ma == mb;
    assert |ma| == |Filter(a, holds)| && |mb| == |Filter(b, holds)|;
  }

  lemma AllPermutes<T>(a: seq<T>, b: seq<T>, holds: T -> bool)
    requires Permutation(a, b) && All(a, holds)
    ensures All(b, holds)
  {
    forall i | 0 <= i < |b| ensures holds(b[i]) {
      assert b[i] in multiset(a);
      assert b[i] in a;
    }
  }

  lemma SoleElement<T>(s: seq<T>, t: seq<T>)
    requires multiset(s) == multiset(t) && |s| == 1 && |t| == 1
    ensures s[0] == t[0]
  {
    assert s[0] in multiset(s);
    assert s[0] in multiset(t);
  }

  /** Whatever the order, an exact selection names the same element, and none stays none. */
  lemma OrderKeepsExact<T(!new)>(a: seq<T>, b: seq<T>, valid: T -> bool, applies: T -> bool)
    requires Permutation(a, b)
    ensures Select(a, valid, applies).Exact? ==> Select(b, valid, applies) == Select(a, valid, applies)
    ensures Select(a, valid, applies).Uncovered? ==> Select(b, valid, applies).Uncovered?
  {
    FilterPermutes(a, b, applies);
    ExactIff(a, valid, applies);
    ExactIff(b, valid, applies);
    if All(a, valid) {
      AllPermutes(a, b, valid);
    }
    if Select(a, valid, applies).Exact? {
      SoleElement(Filter(a, applies), Filter(b, applies));
    }
  }

  /** Some orders are refused as ambiguous and others as invalid. */
  ghost predicate OrderDecides<T(!new)>(xs: seq<T>, valid: T -> bool, applies: T -> bool) {
    && (exists a :: Permutation(xs, a) && Select(a, valid, applies).Ambiguous?)
    && (exists b :: Permutation(xs, b) && Select(b, valid, applies).Invalid?)
  }

  /** Which refusal is given depends on the order exactly when some element is invalid and two valid ones apply. */
  lemma OrderDecidesIff<T(!new)>(xs: seq<T>, valid: T -> bool, applies: T -> bool)
    ensures OrderDecides(xs, valid, applies) <==> !All(xs, valid) && |Filter(Filter(xs, valid), applies)| >= 2
  {
    if OrderDecides(xs, valid, applies) {
      var a :| Permutation(xs, a) && Select(a, valid, applies).Ambiguous?;
      var b :| Permutation(xs, b) && Select(b, valid, applies).Invalid?;
      InvalidPermuted(xs, b, valid, applies);
      AmbiguousPermuted(xs, a, valid, applies);
    }
    if !All(xs, valid) && |Filter(Filter(xs, valid), applies)| >= 2 {
      var invalid := x => !valid(x);
      var good, bad := Filter(xs, valid), Filter(xs, invalid);
      Partitioned(xs, valid, invalid);
      SomeInvalid(xs, valid, invalid);
      assert (good + bad)[..|good|] == good;
      StopsAmbiguous(good + bad, |good|, valid, applies);
      assert (bad + good)[..0] == [];
      StopsInvalid(bad + good, 0, valid, applies);
      assert Permutation(xs, good + bad) && Permutation(xs, bad + good);
    }
  }

  lemma SomeInvalid<T(!new)>(xs: seq<T>, valid: T -> bool, invalid: T -> bool)
    requires !All(xs, valid) && forall x :: invalid(x) <==> !valid(x)
    ensures Filter(xs, invalid) != [] && !valid(Filter(xs, invalid)[0])
  {
    var i :| 0 <= i < |xs| && !valid(xs[i]);
    FilterCounts(xs, invalid, xs[i]);
    assert xs[i] in multiset(xs);
    assert xs[i] in multiset(Filter(xs, invalid));
    assert invalid(Filter(xs, invalid)[0]);
  }

  lemma Partitioned<T(!new)>(xs: seq<T>, valid: T -> bool, invalid: T -> bool)
    requires forall x :: invalid(x) <==> !valid(x)
    ensures multiset(xs) == multiset(Filter(xs, valid) + Filter(xs, invalid))
    ensures multiset(xs) == multiset(Filter(xs, invalid) + Filter(xs, valid))
  {
    var good, bad := Filter(xs, valid), Filter(xs, invalid);
    forall x ensures multiset(xs)[x] == multiset(good)[x] + multiset(bad)[x] {
      FilterCounts(xs, valid, x);
      FilterCounts(xs, invalid, x);
    }
    assert multiset(good + bad) == multiset(good) + multiset(bad);
    assert multiset(bad + good) == multiset(good) + multiset(bad);
  }

  lemma InvalidPermuted<T>(xs: seq<T>, b: seq<T>, valid: T -> bool, applies: T -> bool)
    requires Permutation(xs, b) && Select(b, valid, applies).Invalid?
    ensures !All(xs, valid)
  {
    AllValidCount(b, valid);
    if All(xs, valid) {
      AllPermutes(xs, b, valid);
    }
  }

  lemma AmbiguousPermuted<T(!new)>(xs: seq<T>, a: seq<T>, valid: T -> bool, applies: T -> bool)
    requires Permutation(xs, a) && Select(a, valid, applies).Ambiguous?
    ensures |Filter(Filter(xs, valid), applies)| >= 2
  {
    var n, good := ValidCount(a, valid), Filter(a, valid);
    FilterGrows(a, n, |a|, valid);
    FilterAll(a[..n], valid);
    assert a[..|a|] == a;
    assert good[..n] == a[..n];
    FilterGrows(good, n, |good|, applies);
    assert good[..|good|] == good;
    FilterPermutes(xs, a, valid);
    FilterPermutes(Filter(xs, valid), good, applies);
  }

  lemma {:induction false} FilterAll<T>(xs: seq<T>, holds: T -> bool)
    requires All(xs, holds)
    ensures Filter(xs, holds) == xs
  {
    if xs != [] {
      FilterAll(xs[..|xs| - 1], holds);
    }
  }
}
