/**
 * JavaScript number helpers used by every scorer of the core.
 * JS numbers are modelled as mathematical reals; `Math.round` is
 * `Floor(x + 0.5)` (halves round up, as in JS), and the clamps are the
 * `Math.max(lo, Math.min(hi, x))` idiom the sources use throughout.
 */
module Numeric {

  datatype Option<+T> = None | Some(value: T)

  /** Math.round */
  function Round(x: real): (r: int)
    ensures x - 0.5 < r as real <= x + 0.5
  {
    (x + 0.5).Floor
  }

  /** Math.round keeps a value inside integer bounds that already contain it. */
  lemma {:induction false} RoundWithin(x: real, lo: int, hi: int)
    requires lo as real <= x <= hi as real
    ensures lo <= Round(x) <= hi
  {
  }

  function Min(a: real, b: real): (r: real)
    ensures r <= a && r <= b && (r == a || r == b)
  {
    if a <= b then a else b
  }

  function Max(a: real, b: real): (r: real)
    ensures r >= a && r >= b && (r == a || r == b)
  {
    if a >= b then a else b
  }

  function Abs(x: real): (r: real)
    ensures r >= 0.0 && (r == x || r == -x)
  {
    if x < 0.0 then -x else x
  }

  /** Math.max(lo, Math.min(hi, x)) */
  function Clamp(lo: real, hi: real, x: real): (r: real)
    requires lo <= hi
    ensures lo <= r <= hi
    ensures lo <= x <= hi ==> r == x
    ensures x < lo ==> r == lo
    ensures x > hi ==> r == hi
  {
    Max(lo, Min(hi, x))
  }
}

/**
 * The `reduce`/`filter` folds the sources apply to arrays: sums, means,
 * counts of matching elements, filtered copies and the population variance
 * (`calculateVariance` in the analyser and the predictor).
 */
module Folds {

  /** `xs.reduce((sum, x) => sum + f(x), 0)` */
  function SumOf<T>(s: seq<T>, f: T -> real): (r: real)
    ensures |s| == 1 ==> r == f(s[0])
  {
    if s == [] then 0.0 else SumOf(s[..|s| - 1], f) + f(s[|s| - 1])
  }

  lemma {:induction false} SumOfAppend<T>(a: seq<T>, b: seq<T>, f: T -> real)
    ensures SumOf(a + b, f) == SumOf(a, f) + SumOf(b, f)
  {
    if b == [] {
      assert a + b == a;
    } else {
      assert (a + b)[..|a + b| - 1] == a + b[..|b| - 1];
      SumOfAppend(a, b[..|b| - 1], f);
    }
  }

  /** A sum of terms that each lie in [lo, hi] lies in [n*lo, n*hi]. */
  lemma {:induction false} SumOfBounds<T>(s: seq<T>, f: T -> real, lo: real, hi: real)
    requires forall i :: 0 <= i < |s| ==> lo <= f(s[i]) <= hi
    ensures |s| as real * lo <= SumOf(s, f) <= |s| as real * hi
  {
    if s != [] {
      SumOfBounds(s[..|s| - 1], f, lo, hi);
      assert lo <= f(s[|s| - 1]) <= hi;
    }
  }

  /** `sum / xs.length` for a non-empty array */
  function MeanOf<T>(s: seq<T>, f: T -> real): (r: real)
    requires |s| > 0
    ensures r * |s| as real == SumOf(s, f)
  {
    SumOf(s, f) / |s| as real
  }

  lemma {:induction false} DivisionBounds(x: real, n: real, lo: real, hi: real)
    requires n > 0.0 && n * lo <= x <= n * hi
    ensures lo <= x / n <= hi
  {
    assert x / n - lo == (x - n * lo) / n;
    assert hi - x / n == (n * hi - x) / n;
  }

  /** The mean of terms that each lie in [lo, hi] lies in [lo, hi]. */
  lemma {:induction false} MeanOfBounds<T>(s: seq<T>, f: T -> real, lo: real, hi: real)
    requires |s| > 0
    requires forall i :: 0 <= i < |s| ==> lo <= f(s[i]) <= hi
    ensures lo <= MeanOf(s, f) <= hi
  {
    SumOfBounds(s, f, lo, hi);
    DivisionBounds(SumOf(s, f), |s| as real, lo, hi);
  }

  lemma {:induction false} SumOfAtMost<T>(s: seq<T>, f: T -> real, hi: real)
    requires forall i :: 0 <= i < |s| ==> f(s[i]) <= hi
    ensures SumOf(s, f) <= |s| as real * hi
  {
    if s != [] {
      SumOfAtMost(s[..|s| - 1], f, hi);
      assert f(s[|s| - 1]) <= hi;
    }
  }

  lemma {:induction false} SumOfAtLeast<T>(s: seq<T>, f: T -> real, lo: real)
    requires forall i :: 0 <= i < |s| ==> lo <= f(s[i])
    ensures |s| as real * lo <= SumOf(s, f)
  {
    if s != [] {
      SumOfAtLeast(s[..|s| - 1], f, lo);
      assert lo <= f(s[|s| - 1]);
    }
  }

  /** The mean of terms that are each at most `hi` is at most `hi`. */
  lemma {:induction false} MeanOfAtMost<T>(s: seq<T>, f: T -> real, hi: real)
    requires |s| > 0
    requires forall i :: 0 <= i < |s| ==> f(s[i]) <= hi
    ensures MeanOf(s, f) <= hi
  {
    SumOfAtMost(s, f, hi);
    var n := |s| as real;
    assert hi - SumOf(s, f) / n == (n * hi - SumOf(s, f)) / n;
  }

  /** The mean of terms that are each at least `lo` is at least `lo`. */
  lemma {:induction false} MeanOfAtLeast<T>(s: seq<T>, f: T -> real, lo: real)
    requires |s| > 0
    requires forall i :: 0 <= i < |s| ==> lo <= f(s[i])
    ensures lo <= MeanOf(s, f)
  {
    SumOfAtLeast(s, f, lo);
    var n := |s| as real;
    assert SumOf(s, f) / n - lo == (SumOf(s, f) - n * lo) / n;
  }

  /** `xs.map(f)` */
  function Map<A, B>(s: seq<A>, f: A -> B): (r: seq<B>)
    ensures |r| == |s| && forall i :: 0 <= i < |s| ==> r[i] == f(s[i])
  {
    seq(|s|, i requires 0 <= i < |s| => f(s[i]))
  }

  lemma {:induction false} MapAppend<A, B>(a: seq<A>, b: seq<A>, f: A -> B)
    ensures Map(a + b, f) == Map(a, f) + Map(b, f)
  {
    assert forall i :: 0 <= i < |a + b| ==> Map(a + b, f)[i] == (Map(a, f) + Map(b, f))[i];
  }

  /** `if (c) list.push(x)`: the element when the condition holds, else nothing. */
  function When<T>(c: bool, x: T): (r: seq<T>)
    ensures c ==> r == [x]
    ensures !c ==> r == []
  {
    if c then [x] else []
  }

  /** Pushing nothing leaves a list as it is. */
  lemma {:induction false} AppendNil<T>(s: seq<T>)
    ensures s + [] == s
  {
  }

  /** A prefix one longer is the prefix with the next element pushed. */
  lemma {:induction false} PrefixSnoc<T>(s: seq<T>, i: nat)
    requires i < |s|
    ensures s[..i] + [s[i]] == s[..i + 1]
  {
  }

  /** Two pushes in a row append both, in order. */
  lemma {:induction false} AppendAssoc<T>(a: seq<T>, b: seq<T>, c: seq<T>)
    ensures a + b + c == a + (b + c)
  {
  }

  lemma {:induction false} MapWhen<A, B>(c: bool, x: A, f: A -> B)
    ensures Map(When(c, x), f) == When(c, f(x))
  {
  }

  /**
   * Three optional pushes of different elements: each element is present
   * exactly when its condition holds, and nothing else is.
   */
  lemma {:induction false} WhenMembers3<T>(c1: bool, x1: T, c2: bool, x2: T, c3: bool, x3: T)
    requires x1 != x2 && x1 != x3 && x2 != x3
    ensures var t := When(c1, x1) + When(c2, x2) + When(c3, x3);
      && |t| <= 3
      && (x1 in t <==> c1) && (x2 in t <==> c2) && (x3 in t <==> c3)
      && forall y :: y in t ==> (c1 && y == x1) || (c2 && y == x2) || (c3 && y == x3)
  {
  }

  /** `xs.filter(p).length` */
  function CountWhere<T>(s: seq<T>, p: T -> bool): (n: nat)
    ensures n <= |s|
  {
    if s == [] then 0 else CountWhere(s[..|s| - 1], p) + (if p(s[|s| - 1]) then 1 else 0)
  }

  lemma {:induction false} CountWhereAppend<T>(a: seq<T>, b: seq<T>, p: T -> bool)
    ensures CountWhere(a + b, p) == CountWhere(a, p) + CountWhere(b, p)
  {
    if b == [] {
      assert a + b == a;
    } else {
      assert (a + b)[..|a + b| - 1] == a + b[..|b| - 1];
      CountWhereAppend(a, b[..|b| - 1], p);
    }
  }

  /** No element matches exactly when the count is zero. */
  lemma {:induction false} CountWhereZero<T>(s: seq<T>, p: T -> bool)
    ensures CountWhere(s, p) == 0 <==> forall i :: 0 <= i < |s| ==> !p(s[i])
  {
    if s != [] {
      CountWhereZero(s[..|s| - 1], p);
      assert forall i :: 0 <= i < |s| - 1 ==> s[..|s| - 1][i] == s[i];
    }
  }

  /** Every element matches exactly when the count is the length. */
  lemma {:induction false} CountWhereAll<T>(s: seq<T>, p: T -> bool)
    ensures CountWhere(s, p) == |s| <==> forall i :: 0 <= i < |s| ==> p(s[i])
  {
    if s != [] {
      CountWhereAll(s[..|s| - 1], p);
      assert forall i :: 0 <= i < |s| - 1 ==> s[..|s| - 1][i] == s[i];
    }
  }

  /** A weaker predicate never matches more elements. */
  lemma {:induction false} CountWhereMono<T>(s: seq<T>, p: T -> bool, q: T -> bool)
    requires forall i :: 0 <= i < |s| && p(s[i]) ==> q(s[i])
    ensures CountWhere(s, p) <= CountWhere(s, q)
  {
    if s != [] {
      assert forall i :: 0 <= i < |s| - 1 ==> s[..|s| - 1][i] == s[i];
      CountWhereMono(s[..|s| - 1], p, q);
    }
  }

  /** Replacing one element changes the count by what the old and new element contribute. */
  lemma {:induction false} CountWhereUpdate<T>(s: seq<T>, i: int, x: T, p: T -> bool)
    requires 0 <= i < |s|
    ensures CountWhere(s[i := x], p) ==
      CountWhere(s, p) - (if p(s[i]) then 1 else 0) + (if p(x) then 1 else 0)
  {
    var last := |s| - 1;
    if i < last {
      assert s[i := x][..last] == s[..last][i := x];
      CountWhereUpdate(s[..last], i, x, p);
    } else {
      assert s[i := x][..last] == s[..last];
    }
  }

  /**
   * The positions of `s` whose element satisfies `p`, in increasing order,
   * hence each at most once, one per matching element.
   */
  ghost function MatchingPositions<T>(s: seq<T>, p: T -> bool): (idx: seq<nat>)
    ensures |idx| == CountWhere(s, p)
    ensures forall k :: 0 <= k < |idx| ==> idx[k] < |s| && p(s[idx[k]])
    ensures forall k, l :: 0 <= k < l < |idx| ==> idx[k] < idx[l]
  {
    if s == [] then [] else MatchingPositions(s[..|s| - 1], p) + (if p(s[|s| - 1]) then [|s| - 1] else [])
  }

  /** `xs.filter(p)`: the matching elements, in their original order. */
  function Filter<T>(s: seq<T>, p: T -> bool): (r: seq<T>)
    ensures |r| == CountWhere(s, p)
    ensures forall i :: 0 <= i < |r| ==> r[i] in s && p(r[i])
    ensures forall i :: 0 <= i < |s| && p(s[i]) ==> s[i] in r
  {
    if s == [] then [] else Filter(s[..|s| - 1], p) + (if p(s[|s| - 1]) then [s[|s| - 1]] else [])
  }

  /**
   * The k-th element `filter` keeps is the one at the k-th matching
   * position: the result is the subsequence of matching elements, in order,
   * each as often as it matches.
   */
  lemma {:induction false} FilterAtMatchingPositions<T>(s: seq<T>, p: T -> bool)
    ensures |Filter(s, p)| == |MatchingPositions(s, p)|
    ensures forall k :: 0 <= k < |Filter(s, p)| ==> Filter(s, p)[k] == s[MatchingPositions(s, p)[k]]
  {
    if s != [] {
      var init := s[..|s| - 1];
      FilterAtMatchingPositions(init, p);
      var front, idx := Filter(init, p), MatchingPositions(init, p);
      var r, m := Filter(s, p), MatchingPositions(s, p);
      var last := |s| - 1;
      assert r == front + (if p(s[last]) then [s[last]] else []);
      assert m == idx + (if p(s[last]) then [last] else []);
      forall k | 0 <= k < |r|
        ensures r[k] == s[m[k]]
      {
        if k < |front| {
          assert r[k] == front[k] == init[idx[k]];
          assert m[k] == idx[k] < |init|;
        }
      }
    }
  }

  /**
   * The distinct elements of `s` in order of first occurrence: the key order
   * of a count record filled from `s` whose keys are never integer-like
   * strings, so that the record enumerates them in insertion order.
   */
  function FirstOccurrences<T(==, !new)>(s: seq<T>): (keys: seq<T>)
    ensures forall x :: x in keys <==> x in s
    ensures s != [] ==> keys != [] && keys[0] == s[0]
  {
    if s == [] then []
    else
      var prefix := s[..|s| - 1];
      assert s == prefix + [s[|s| - 1]];
      var keys := FirstOccurrences(prefix);
      if s[|s| - 1] in keys then keys else keys + [s[|s| - 1]]
  }

  /** No key is listed twice. */
  lemma {:induction false} FirstOccurrencesDistinct<T(!new)>(s: seq<T>)
    ensures forall i, j :: 0 <= i < j < |FirstOccurrences(s)| ==> FirstOccurrences(s)[i] != FirstOccurrences(s)[j]
  {
    if s != [] {
      var prefix := s[..|s| - 1];
      FirstOccurrencesDistinct(prefix);
      var earlier := FirstOccurrences(prefix);
      var keys := FirstOccurrences(s);
      var last := s[|s| - 1];
      if last !in earlier {
        assert keys == earlier + [last];
        forall i, j | 0 <= i < j < |keys|
          ensures keys[i] != keys[j]
        {
          assert keys[i] == earlier[i] && earlier[i] in earlier;
          if j < |earlier| {
            assert keys[j] == earlier[j];
          } else {
            assert keys[j] == last;
          }
        }
      } else {
        assert keys == earlier;
      }
    }
  }

  lemma {:induction false} FirstOccurrencesSnoc<T(!new)>(s: seq<T>, x: T)
    ensures FirstOccurrences(s + [x]) == if x in s then FirstOccurrences(s) else FirstOccurrences(s) + [x]
  {
    assert (s + [x])[..|s|] == s;
    var keys := FirstOccurrences(s);
    if x in s {
      var i :| 0 <= i < |s| && s[i] == x;
      assert s[i] in keys;
    }
  }

  /** `counts` records, for exactly the elements of `s`, how often each occurs. */
  ghost predicate IsTally<T(!new)>(counts: map<T, nat>, s: seq<T>)
  {
    && (forall y :: y in counts <==> y in s)
    && (forall y :: y in counts ==> counts[y] == multiset(s)[y])
  }

  /** A count record over `s` together with its keys in first-occurrence order. */
  ghost predicate Tallied<T(!new)>(counts: map<T, nat>, keys: seq<T>, s: seq<T>)
  {
    keys == FirstOccurrences(s) && IsTally(counts, s)
  }

  /** The loop that fills a count record (`counts[x] = (counts[x] || 0) + 1`); `keys` is the record's key order. */
  method Tally<T(==, !new)>(arr: seq<T>) returns (counts: map<T, nat>, keys: seq<T>)
    ensures keys == FirstOccurrences(arr)
    ensures IsTally(counts, arr)
  {
    counts := map[];
    keys := [];
    ghost var seen: seq<T> := [];
    for i := 0 to |arr|
      invariant seen == arr[..i]
      invariant Tallied(counts, keys, seen)
    {
      counts, keys := CountOne(counts, keys, seen, arr[i]);
      PrefixSnoc(arr, i);
      seen := seen + [arr[i]];
    }
    assert arr[..|arr|] == arr;
  }

  /** The loop body of a tally: `counts[item] = (counts[item] || 0) + 1`, a new key joining the key order. */
  method CountOne<T(==, !new)>(counts: map<T, nat>, keys: seq<T>, ghost seen: seq<T>, item: T)
    returns (counts': map<T, nat>, keys': seq<T>)
    requires Tallied(counts, keys, seen)
    ensures Tallied(counts', keys', seen + [item])
  {
    TallyStep(counts, keys, seen, item);
    keys' := keys;
    if item !in counts {
      keys' := keys + [item];
    }
    counts' := counts[item := (if item in counts then counts[item] else 0) + 1];
  }

  /**
   * One `counts[item] = (counts[item] || 0) + 1`, with the key appended when
   * it is new, keeps the record a tally of the elements seen and its keys in
   * first-occurrence order.
   */
  lemma {:induction false} TallyStep<T(!new)>(counts: map<T, nat>, keys: seq<T>, s: seq<T>, x: T)
    requires Tallied(counts, keys, s)
    ensures Tallied(counts[x := (if x in counts then counts[x] else 0) + 1], if x in counts then keys else keys + [x], s + [x])
  {
    FirstOccurrencesSnoc(s, x);
    CountStep(counts, s, x);
  }

  lemma {:induction false} CountStep<T(!new)>(counts: map<T, nat>, s: seq<T>, x: T)
    requires IsTally(counts, s)
    ensures IsTally(counts[x := (if x in counts then counts[x] else 0) + 1], s + [x])
  {
    var c := counts[x := (if x in counts then counts[x] else 0) + 1];
    assert multiset(s + [x]) == multiset(s) + multiset{x};
    forall y | y in c
      ensures c[y] == multiset(s + [x])[y]
    {
      if y == x && x !in counts {
        assert multiset(s)[x] == 0;
      }
    }
  }

  /** Inserting before the first element of no greater key keeps earlier elements first among ties. */
  function InsertBy<T>(x: T, s: seq<T>, key: T -> real): (r: seq<T>)
    ensures multiset(r) == multiset(s) + multiset{x}
    ensures |r| == |s| + 1
  {
    if s == [] then [x]
    else if key(x) >= key(s[0]) then [x] + s
    else
      assert s == [s[0]] + s[1..];
      [s[0]] + InsertBy(x, s[1..], key)
  }

  /** `xs.sort((a, b) => key(b) - key(a))`: a stable sort, largest key first. */
  function SortBy<T>(s: seq<T>, key: T -> real): (r: seq<T>)
    ensures multiset(r) == multiset(s)
    ensures |r| == |s|
  {
    if s == [] then []
    else
      assert s == [s[0]] + s[1..];
      InsertBy(s[0], SortBy(s[1..], key), key)
  }

  /** a comes before b: a larger key, or an equal key and a smaller rank. */
  predicate Precedes<T>(a: T, b: T, key: T -> real, rank: T -> int)
  {
    key(a) > key(b) || (key(a) == key(b) && rank(a) < rank(b))
  }

  predicate OrderedBy<T>(s: seq<T>, key: T -> real, rank: T -> int)
  {
    forall i, j :: 0 <= i < j < |s| ==> Precedes(s[i], s[j], key, rank)
  }

  predicate IncreasingRank<T>(s: seq<T>, rank: T -> int)
  {
    forall i, j :: 0 <= i < j < |s| ==> rank(s[i]) < rank(s[j])
  }

  lemma {:induction false} InsertByOrdered<T>(x: T, s: seq<T>, key: T -> real, rank: T -> int)
    requires OrderedBy(s, key, rank)
    requires forall y :: y in s ==> rank(x) < rank(y)
    ensures OrderedBy(InsertBy(x, s, key), key, rank)
  {
    if s != [] && key(x) < key(s[0]) {
      InsertByOrdered(x, s[1..], key, rank);
      var r := InsertBy(x, s[1..], key);
      forall j | 0 <= j < |r|
        ensures Precedes(s[0], r[j], key, rank)
      {
        assert r[j] in multiset(r);
        if r[j] != x {
          assert r[j] in s[1..];
        }
      }
    }
  }

  /** Sorting elements listed in rank order yields key order with ties in rank order: the sort is stable. */
  lemma {:induction false} SortByOrdered<T>(s: seq<T>, key: T -> real, rank: T -> int)
    requires IncreasingRank(s, rank)
    ensures OrderedBy(SortBy(s, key), key, rank)
  {
    if s != [] {
      SortByOrdered(s[1..], key, rank);
      forall y | y in SortBy(s[1..], key)
        ensures rank(s[0]) < rank(y)
      {
        assert y in multiset(SortBy(s[1..], key));
        assert y in s[1..];
      }
      InsertByOrdered(s[0], SortBy(s[1..], key), key, rank);
    }
  }

  /** calculateVariance: population variance, mean of squared deviations; never negative. */
  function Variance(s: seq<real>): (r: real)
    requires |s| > 0
    ensures r >= 0.0
  {
    var mean := MeanOf(s, x => x);
    var squared := x => (x - mean) * (x - mean);
    SquaredDeviationsNonNegative(s, mean);
    MeanOfAtLeast(s, squared, 0.0);
    MeanOf(s, squared)
  }

  lemma {:induction false} SquaredDeviationsNonNegative(s: seq<real>, mean: real)
    ensures forall i :: 0 <= i < |s| ==> (s[i] - mean) * (s[i] - mean) >= 0.0
  {
    forall i | 0 <= i < |s|
      ensures (s[i] - mean) * (s[i] - mean) >= 0.0
    {
      var d := s[i] - mean;
      if d < 0.0 {
        assert d * d == (-d) * (-d);
      }
    }
  }

  /** Equal values have variance zero: their mean is that value and every deviation is zero. */
  lemma {:induction false} VarianceOfConstant(s: seq<real>, v: real)
    requires |s| > 0
    requires forall i :: 0 <= i < |s| ==> s[i] == v
    ensures Variance(s) == 0.0
  {
    MeanOfBounds(s, x => x, v, v);
    var mean := MeanOf(s, x => x);
    MeanOfBounds(s, x => (x - mean) * (x - mean), 0.0, 0.0);
  }
}
