/** Small shared vocabulary: optional values, results that may carry an exception, and
    choosing the first elements of a collection in a sort order. */
module Common {

  datatype Option<+T> = None | Some(value: T)

  type Pos = n: nat | 0 < n witness 1

  /** normalize_optional_limit: a limit is absent or a positive integer. */
  predicate ValidLimit(limit: Option<int>) { limit.Some? ==> limit.value > 0 }

  function Min(a: int, b: int): int { if a <= b then a else b }

  function Max(a: int, b: int): int { if a <= b then b else a }

  /** A total preorder on the ids of a finite set: what a sort key induces. */
  ghost predicate Preorder(ids: set<nat>, before: (nat, nat) -> bool) {
    && (forall a, b :: a in ids && b in ids ==> before(a, b) || before(b, a))
    && (forall a, b, c :: a in ids && b in ids && c in ids && before(a, b) && before(b, c) ==> before(a, c))
  }

  ghost predicate SortedBy(s: seq<nat>, before: (nat, nat) -> bool) {
    forall i, j :: 0 <= i < j < |s| ==> before(s[i], s[j])
  }

  ghost predicate Distinct<T>(s: seq<T>) {
    forall i, j :: 0 <= i < j < |s| ==> s[i] != s[j]
  }

  function Elements<T>(s: seq<T>): (r: set<T>) {
    set x | x in s
  }

  /** `chosen` is what sorting `eligible` and cutting the list at an optional limit keeps. */
  ghost predicate FirstOf(chosen: seq<nat>, eligible: set<nat>, limit: Option<int>, before: (nat, nat) -> bool) {
    && Distinct(chosen)
    && SortedBy(chosen, before)
    && Elements(chosen) <= eligible
    && |chosen| == (if limit.Some? then Min(limit.value, |eligible|) else |eligible|)
    && (forall a, b :: a in chosen && b in eligible && b !in chosen ==> before(a, b))
  }

  lemma {:induction false} DistinctCount<T>(s: seq<T>)
    requires Distinct(s)
    ensures |Elements(s)| == |s|
  {
    if s == [] {
    } else {
      var front, last := s[..|s| - 1], s[|s| - 1];
      DistinctCount(front);
      assert s == front + [last];
      assert Elements(s) == Elements(front) + {last};
    }
  }

  lemma {:induction false} FewElements<T>(s: seq<T>)
    ensures |Elements(s)| <= |s|
  {
    if s != [] {
      var n := |s| - 1;
      FewElements(s[..n]);
      assert s == s[..n] + [s[n]];
      assert Elements(s) == Elements(s[..n]) + {s[n]};
    }
  }

  lemma SubsetCount<T>(a: set<T>, b: set<T>)
    requires a <= b
    ensures |a| <= |b|
    ensures |a| == |b| ==> a == b
  {
    assert b == a + (b - a);
  }

  /** Without a limit, or with one that is not reached, nothing eligible is left out. */
  lemma FirstOfAll(chosen: seq<nat>, eligible: set<nat>, limit: Option<int>, before: (nat, nat) -> bool)
    requires FirstOf(chosen, eligible, limit, before)
    requires limit.None? || |eligible| <= limit.value
    ensures Elements(chosen) == eligible
  {
    DistinctCount(chosen);
    SubsetCount(Elements(chosen), eligible);
  }

  lemma {:induction false} LeastExists(ids: set<nat>, before: (nat, nat) -> bool) returns (x: nat)
    requires ids != {} && Preorder(ids, before)
    ensures x in ids && forall y :: y in ids ==> before(x, y)
  {
    var z :| z in ids;
    if ids == {z} {
      x := z;
    } else {
      var least := LeastExists(ids - {z}, before);
      x := if before(z, least) then z else least;
      assert ids == (ids - {z}) + {z};
    }
  }

  /** Sort ids by a key, as list.sort does; ids with equal keys come in no particular order. */
  method SortIds(ids: set<nat>, before: (nat, nat) -> bool) returns (sorted: seq<nat>)
    requires Preorder(ids, before)
    ensures FirstOf(sorted, ids, None, before)
    ensures Elements(sorted) == ids
  {
    sorted := [];
    var rest := ids;
    while rest != {}
      invariant rest <= ids
      invariant SortedSoFar(sorted, ids, rest, before)
      decreases rest
    {
      ghost var least := LeastExists(rest, before);
      var x :| x in rest && forall y :: y in rest ==> before(x, y);
      AppendLeast(sorted, ids, rest, x, before);
      sorted := sorted + [x];
      rest := rest - {x};
    }
    DistinctCount(sorted);
  }

  ghost predicate SortedSoFar(sorted: seq<nat>, ids: set<nat>, rest: set<nat>, before: (nat, nat) -> bool) {
    && Elements(sorted) == ids - rest
    && Distinct(sorted) && SortedBy(sorted, before)
    && forall i, b :: 0 <= i < |sorted| && b in rest ==> before(sorted[i], b)
  }

  lemma AppendLeast(sorted: seq<nat>, ids: set<nat>, rest: set<nat>, x: nat, before: (nat, nat) -> bool)
    requires rest <= ids && SortedSoFar(sorted, ids, rest, before)
    requires x in rest && forall y :: y in rest ==> before(x, y)
    ensures SortedSoFar(sorted + [x], ids, rest - {x}, before)
  {
    assert x !in Elements(sorted);
    assert Elements(sorted + [x]) == Elements(sorted) + {x};
  }

  /** Cutting a sorted list after `limit` elements. */
  lemma TakeIsFirstOf(sorted: seq<nat>, ids: set<nat>, limit: Option<int>, before: (nat, nat) -> bool)
    requires FirstOf(sorted, ids, None, before) && ValidLimit(limit)
    ensures var k := if limit.Some? then Min(limit.value, |sorted|) else |sorted|;
            FirstOf(sorted[..k], ids, limit, before)
  {
    var k := if limit.Some? then Min(limit.value, |sorted|) else |sorted|;
    var chosen := sorted[..k];
    DistinctCount(sorted);
    SubsetCount(Elements(sorted), ids);
    forall a, b | a in chosen && b in ids && b !in chosen ensures before(a, b) {
      assert b in Elements(sorted);
      var j :| 0 <= j < |sorted| && sorted[j] == b;
      assert k <= j;
    }
  }

  /** Sort, then keep the first `limit`. */
  method SortAndCut(ids: set<nat>, limit: Option<int>, before: (nat, nat) -> bool) returns (chosen: seq<nat>)
    requires Preorder(ids, before) && ValidLimit(limit)
    ensures FirstOf(chosen, ids, limit, before)
    ensures limit.None? ==> Elements(chosen) == ids
  {
    chosen := SortIds(ids, before);
    TakeIsFirstOf(chosen, ids, limit, before);
    if limit.Some? && limit.value < |chosen| {
      chosen := chosen[..limit.value];
    } else {
      assert chosen[..|chosen|] == chosen;
    }
  }

  // ---------- scanning a sorted list for the elements that need work, up to a limit ----------

  /** `found` is what the first `i` elements of `sorted` contain of `eligible`, in order. */
  ghost predicate Scanned(found: seq<nat>, sorted: seq<nat>, i: nat, eligible: set<nat>, before: (nat, nat) -> bool) {
    && i <= |sorted|
    && Distinct(found) && SortedBy(found, before)
    && Elements(found) == Elements(sorted[..i]) * eligible
  }

  lemma ScanStart(sorted: seq<nat>, eligible: set<nat>, before: (nat, nat) -> bool)
    ensures Scanned([], sorted, 0, eligible, before)
    ensures Elements(sorted[..0]) == {} && Elements<nat>([]) == {}
  {
  }

  lemma SortedFacts(sorted: seq<nat>, ids: set<nat>, before: (nat, nat) -> bool)
    requires FirstOf(sorted, ids, None, before)
    ensures Distinct(sorted) && SortedBy(sorted, before)
  {
  }

  lemma ChosenFacts(chosen: seq<nat>, ids: set<nat>, limit: Option<int>, before: (nat, nat) -> bool)
    requires FirstOf(chosen, ids, limit, before)
    ensures Distinct(chosen) && Elements(chosen) <= ids
  {
  }

  lemma ScanSubset(found: seq<nat>, sorted: seq<nat>, i: nat, eligible: set<nat>, before: (nat, nat) -> bool)
    requires Scanned(found, sorted, i, eligible, before)
    ensures Elements(found) <= Elements(sorted[..i])
  {
  }

  lemma ScanNext(found: seq<nat>, sorted: seq<nat>, i: nat, eligible: set<nat>, before: (nat, nat) -> bool)
    requires Scanned(found, sorted, i, eligible, before) && i < |sorted|
    requires Distinct(sorted) && SortedBy(sorted, before)
    ensures sorted[i] !in Elements(sorted[..i]) && sorted[i] !in found
    ensures Elements(sorted[..i + 1]) == Elements(sorted[..i]) + {sorted[i]}
    ensures Scanned(if sorted[i] in eligible then found + [sorted[i]] else found, sorted, i + 1, eligible, before)
  {
    var x := sorted[i];
    assert sorted[..i + 1] == sorted[..i] + [x];
    forall y | y in found ensures before(y, x) && y != x {
      assert y in Elements(found);
      var k :| 0 <= k < i && sorted[k] == y;
    }
    assert Elements(found + [x]) == Elements(found) + {x};
  }

  /** A scan that ran to the end, or stopped when the limit was reached, found the first ones. */
  lemma ScanDone(found: seq<nat>, sorted: seq<nat>, i: nat, ids: set<nat>, eligible: set<nat>, limit: Option<int>,
                 before: (nat, nat) -> bool)
    requires Scanned(found, sorted, i, eligible, before) && FirstOf(sorted, ids, None, before)
    requires Elements(sorted) == ids && eligible <= ids
    requires limit.Some? ==> |found| <= limit.value
    requires i == |sorted| || (limit.Some? && |found| == limit.value)
    ensures FirstOf(found, eligible, limit, before)
  {
    DistinctCount(found);
    SubsetCount(Elements(found), eligible);
    if i == |sorted| {
      assert sorted[..i] == sorted;
      assert Elements(found) == eligible;
    }
    forall m | 0 <= m < i ensures sorted[m] in Elements(sorted[..i]) {
      assert sorted[..i][m] == sorted[m];
    }
    forall a, b | a in found && b in eligible && b !in found ensures before(a, b) {
      assert a in Elements(found) && b in Elements(sorted) && b !in Elements(found);
      var k :| 0 <= k < i && sorted[k] == a;
      var m :| 0 <= m < |sorted| && sorted[m] == b;
      assert b !in Elements(sorted[..i]) && m >= i;
    }
  }
}
