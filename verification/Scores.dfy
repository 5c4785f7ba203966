/** The arithmetic of the release gate, on exact reals: rounding to hundredths, means, slices, the interval. */
module Scores {

  // ---------------------------------------------------------------- rounding

  /** Nearest integer, ties to even. */
  function Nearest(x: real): int {
    var n := x.Floor;
    var d := x - n as real;
    if d < 0.5 then n else if d > 0.5 then n + 1 else if n % 2 == 0 then n else n + 1
  }

  function Round2(x: real): real { Nearest(x * 100.0) as real / 100.0 }

  function Round4(x: real): real { Nearest(x * 10000.0) as real / 10000.0 }

  lemma NearestIsMonotone(x: real, y: real)
    requires x <= y
    ensures Nearest(x) <= Nearest(y)
  {
    assert x.Floor <= y.Floor;
  }

  lemma RoundIsMonotone(x: real, y: real)
    requires x <= y
    ensures Round2(x) <= Round2(y)
  {
    NearestIsMonotone(x * 100.0, y * 100.0);
  }

  predicate Within(x: real, y: real, error: real) { y - error <= x <= y + error }

  lemma RoundIsNear(x: real)
    ensures Within(Round2(x), x, 0.005) && Within(Round4(x), x, 0.00005)
    ensures Round2(x) * 100.0 == Nearest(x * 100.0) as real
  {
    NearestIsNear(x * 100.0);
    NearestIsNear(x * 10000.0);
  }

  lemma NearestIsNear(x: real)
    ensures Within(Nearest(x) as real, x, 0.5)
  {
  }

  /** A difference of rounded scores needs no rounding. */
  lemma RoundKeepsDifference(x: real, y: real)
    ensures Round2(Round2(x) - Round2(y)) == Round2(x) - Round2(y)
  {
    var n := Nearest(x * 100.0) - Nearest(y * 100.0);
    assert (Round2(x) - Round2(y)) * 100.0 == n as real;
    assert Nearest(n as real) == n;
  }

  /** Whole numbers, such as the bounds of a score, are left as they are. */
  lemma RoundKeepsIntegers(n: int)
    ensures Round2(n as real) == n as real
  {
    assert n as real * 100.0 == (n * 100) as real;
    assert Nearest((n * 100) as real) == n * 100;
  }

  /** A rounded score reaches a whole-number floor exactly when the score itself misses it by no more than half a
      hundredth. */
  lemma RoundReachesFloorIff(x: real, floor: int)
    ensures Round2(x) >= floor as real <==> x >= floor as real - 0.005
  {
    var y := x * 100.0;
    var n := 100 * floor;
    assert Round2(x) >= floor as real <==> Nearest(y) >= n by {
      assert floor as real * 100.0 == n as real;
    }
    if y >= n as real - 0.5 {
      assert y.Floor >= n - 1;
    } else {
      assert y.Floor <= n - 1;
    }
  }

  // ---------------------------------------------------------------- sums

  function SumBy<T>(xs: seq<T>, f: T -> real): real {
    if xs == [] then 0.0 else f(xs[0]) + SumBy(xs[1..], f)
  }

  function Filter<T>(xs: seq<T>, p: T -> bool): seq<T> {
    if xs == [] then [] else (if p(xs[0]) then [xs[0]] else []) + Filter(xs[1..], p)
  }

  lemma {:induction false} FilterCounts<T>(xs: seq<T>, p: T -> bool, x: T)
    ensures multiset(Filter(xs, p))[x] == if p(x) then multiset(xs)[x] else 0
  {
    if xs != [] {
      assert xs == [xs[0]] + xs[1..];
      FilterCounts(xs[1..], p, x);
    }
  }

  /** A filter keeps the elements at some places, in order: all that pass, and no others. */
  lemma {:induction false} FilterPlaces<T>(xs: seq<T>, p: T -> bool) returns (at: seq<nat>)
    ensures |at| == |Filter(xs, p)| && forall k | 0 <= k < |at| :: at[k] < |xs| && Filter(xs, p)[k] == xs[at[k]] && p(xs[at[k]])
    ensures forall j, k | 0 <= j < k < |at| :: at[j] < at[k]
    ensures forall i: nat | i < |xs| && p(xs[i]) :: i in at
    decreases |xs|
  {
    hide Filter;
    at := [];
    if xs == [] {
      NothingFiltered(p);
    } else {
      var n := |xs| - 1;
      var before := FilterPlaces(xs[..n], p);
      FilterStep(xs, n, p);
      assert xs[..n + 1] == xs;
      at := before + if p(xs[n]) then [n] else [];
    }
  }

  lemma {:induction false} SumAppend<T>(xs: seq<T>, ys: seq<T>, f: T -> real)
    ensures SumBy(xs + ys, f) == SumBy(xs, f) + SumBy(ys, f)
  {
    if xs == [] {
      assert xs + ys == ys;
    } else {
      assert (xs + ys)[1..] == xs[1..] + ys;
      SumAppend(xs[1..], ys, f);
    }
  }

  /** Taking one element out. */
  lemma SumWithoutAt<T>(ys: seq<T>, k: nat, f: T -> real)
    requires k < |ys|
    ensures SumBy(ys, f) == f(ys[k]) + SumBy(ys[..k] + ys[k + 1..], f)
  {
    hide SumBy;
    var x := ys[k];
    assert ys == ys[..k] + ([x] + ys[k + 1..]);
    SumAppend(ys[..k], [x] + ys[k + 1..], f);
    SumFirst(x, ys[k + 1..], f);
    SumAppend(ys[..k], ys[k + 1..], f);
  }

  lemma SumFirst<T>(x: T, xs: seq<T>, f: T -> real)
    ensures SumBy([x] + xs, f) == f(x) + SumBy(xs, f)
  {
    assert ([x] + xs)[1..] == xs;
  }

  lemma SameRest<T>(xs: seq<T>, ys: seq<T>, k: nat)
    requires xs != [] && k < |ys| && ys[k] == xs[0] && multiset(xs) == multiset(ys)
    ensures multiset(xs[1..]) == multiset(ys[..k] + ys[k + 1..])
  {
    assert xs == [xs[0]] + xs[1..];
    assert ys == ys[..k] + [ys[k]] + ys[k + 1..];
    assert multiset(xs[1..]) == multiset(xs) - multiset{xs[0]};
    assert multiset(ys[..k] + ys[k + 1..]) == multiset(ys) - multiset{ys[k]};
  }

  lemma {:induction false} SumIgnoresOrder<T>(xs: seq<T>, ys: seq<T>, f: T -> real)
    requires multiset(xs) == multiset(ys)
    ensures SumBy(xs, f) == SumBy(ys, f) && |xs| == |ys|
  {
    assert |xs| == |multiset(xs)| && |ys| == |multiset(ys)|;
    if xs != [] {
      var x := xs[0];
      assert x in multiset(ys);
      var k :| 0 <= k < |ys| && ys[k] == x;
      SumWithoutAt(ys, k, f);
      var rest := ys[..k] + ys[k + 1..];
      SameRest(xs, ys, k);
      SumIgnoresOrder(xs[1..], rest, f);
    }
  }

  function Mean<T>(xs: seq<T>, f: T -> real): real
    requires xs != []
  {
    SumBy(xs, f) / |xs| as real
  }

  lemma {:induction false} SumBounds<T>(xs: seq<T>, f: T -> real, lo: real, hi: real)
    requires forall x | x in xs :: lo <= f(x) <= hi
    ensures Scale(lo, |xs|) <= SumBy(xs, f) <= Scale(hi, |xs|)
  {
    hide Scale;
    ScaleZero(lo);
    ScaleZero(hi);
    if xs != [] {
      assert xs[0] in xs;
      assert forall x | x in xs[1..] :: x in xs;
      SumBounds(xs[1..], f, lo, hi);
      ScaleStep(lo, |xs[1..]|);
      ScaleStep(hi, |xs[1..]|);
    }
  }

  function Scale(x: real, n: nat): real { x * n as real }

  lemma ScaleZero(x: real)
    ensures Scale(x, 0) == 0.0
  {
  }

  lemma ScaleStep(x: real, n: nat)
    ensures Scale(x, n + 1) == x + Scale(x, n)
  {
    assert (n + 1) as real == 1.0 + n as real;
  }

  lemma Bounded(lo: real, hi: real, n: real, sum: real)
    requires n > 0.0 && lo * n <= sum <= hi * n
    ensures lo <= sum / n <= hi
  {
    Difference(sum, n, lo);
    Difference(sum, n, hi);
    QuotientNotNegative(sum - lo * n, n);
    QuotientNotNegative(hi * n - sum, n);
  }

  lemma Difference(sum: real, n: real, m: real)
    requires n > 0.0
    ensures sum / n - m == (sum - m * n) / n && m - sum / n == (m * n - sum) / n
  {
    assert m * n / n == m;
  }

  lemma QuotientNotNegative(x: real, n: real)
    requires x >= 0.0 && n > 0.0
    ensures x / n >= 0.0
  {
  }

  lemma MeanBounds<T>(xs: seq<T>, f: T -> real, lo: real, hi: real)
    requires xs != [] && forall x | x in xs :: lo <= f(x) <= hi
    ensures lo <= Mean(xs, f) <= hi
  {
    SumBounds(xs, f, lo, hi);
    Bounded(lo, hi, |xs| as real, SumBy(xs, f));
  }

  // ---------------------------------------------------------------- slices

  function Slice<T>(xs: seq<T>, key: T -> string, k: string): seq<T> { Filter(xs, x => key(x) == k) }

  function Keys<T(==)>(xs: seq<T>, key: T -> string): set<string> { set x | x in xs :: key(x) }

  function Others<T>(xs: seq<T>, key: T -> string, k: string): seq<T> { Filter(xs, x => key(x) != k) }

  lemma FilterStep<T>(xs: seq<T>, i: nat, p: T -> bool)
    requires i < |xs|
    ensures Filter(xs[..i + 1], p) == Filter(xs[..i], p) + if p(xs[i]) then [xs[i]] else []
  {
    assert xs[..i + 1] == xs[..i] + [xs[i]];
    FilterAppend(xs[..i], [xs[i]], p);
  }

  lemma {:induction false} FilterAppend<T>(xs: seq<T>, ys: seq<T>, p: T -> bool)
    ensures Filter(xs + ys, p) == Filter(xs, p) + Filter(ys, p)
  {
    if xs == [] {
      assert xs + ys == ys;
    } else {
      assert (xs + ys)[1..] == xs[1..] + ys;
      FilterAppend(xs[1..], ys, p);
      var head := if p(xs[0]) then [xs[0]] else [];
      assert head + (Filter(xs[1..], p) + Filter(ys, p)) == (head + Filter(xs[1..], p)) + Filter(ys, p);
    }
  }

  lemma NothingFiltered<T>(p: T -> bool)
    ensures Filter([], p) == []
  {
  }

  lemma SliceStep<T>(xs: seq<T>, i: nat, key: T -> string, k: string)
    requires i < |xs|
    ensures Slice(xs[..i + 1], key, k) == Slice(xs[..i], key, k) + if key(xs[i]) == k then [xs[i]] else []
  {
    FilterStep(xs, i, x => key(x) == k);
  }

  lemma SliceOfNothing<T>(key: T -> string, k: string)
    ensures Slice([], key, k) == []
  {
  }

  lemma {:induction false} SliceSplits<T>(xs: seq<T>, key: T -> string, k: string, f: T -> real)
    ensures SumBy(xs, f) == SumBy(Slice(xs, key, k), f) + SumBy(Others(xs, key, k), f)
    ensures |xs| == |Slice(xs, key, k)| + |Others(xs, key, k)|
  {
    if xs != [] {
      SliceSplits(xs[1..], key, k, f);
      var rest, others := Slice(xs[1..], key, k), Others(xs[1..], key, k);
      var x := xs[0];
      assert ([x] + rest)[1..] == rest && ([x] + others)[1..] == others;
      if key(x) == k {
        assert Slice(xs, key, k) == [x] + rest && Others(xs, key, k) == others;
        assert SumBy([x] + rest, f) == f(x) + SumBy(rest, f);
      } else {
        assert Slice(xs, key, k) == rest && Others(xs, key, k) == [x] + others;
        assert SumBy([x] + others, f) == f(x) + SumBy(others, f);
      }
    }
  }

  lemma SliceCounts<T>(xs: seq<T>, key: T -> string, k: string, x: T)
    ensures multiset(Slice(xs, key, k))[x] == if key(x) == k then multiset(xs)[x] else 0
  {
    FilterCounts(xs, y => key(y) == k, x);
  }

  lemma {:induction false} SliceOfOthers<T>(xs: seq<T>, key: T -> string, k: string, j: string)
    ensures Slice(Others(xs, key, k), key, j) == if j == k then [] else Slice(xs, key, j)
  {
    if xs != [] {
      SliceOfOthers(xs[1..], key, k, j);
      var others := Others(xs[1..], key, k);
      if key(xs[0]) != k {
        assert Others(xs, key, k) == [xs[0]] + others;
        assert ([xs[0]] + others)[1..] == others;
      } else {
        assert Others(xs, key, k) == others;
      }
    }
  }

  lemma {:induction false} FilterMember<T>(xs: seq<T>, p: T -> bool, x: T)
    ensures x in Filter(xs, p) <==> x in xs && p(x)
  {
    FilterCounts(xs, p, x);
    assert x in Filter(xs, p) <==> multiset(Filter(xs, p))[x] > 0;
    assert x in xs <==> multiset(xs)[x] > 0;
  }

  lemma SliceNotEmpty<T>(xs: seq<T>, key: T -> string, k: string)
    ensures Slice(xs, key, k) != [] <==> k in Keys(xs, key)
  {
    if k in Keys(xs, key) {
      var x :| x in xs && key(x) == k;
      FilterMember(xs, y => key(y) == k, x);
    }
    if Slice(xs, key, k) != [] {
      var x := Slice(xs, key, k)[0];
      FilterMember(xs, y => key(y) == k, x);
    }
  }

  /** If every slice lies above `m` on average, so does the whole (and likewise below, by negating `f`). */
  lemma {:induction false} SlicesAbove<T>(xs: seq<T>, key: T -> string, f: T -> real, m: real)
    requires xs != []
    requires forall k | k in Keys(xs, key) :: SumBy(Slice(xs, key, k), f) > Scale(m, |Slice(xs, key, k)|)
    ensures SumBy(xs, f) > Scale(m, |xs|)
    decreases |xs|
  {
    hide Scale, Slice, Others;
    var k := key(xs[0]);
    assert xs[0] in xs;
    assert k in Keys(xs, key);
    var others := Others(xs, key, k);
    SliceSplits(xs, key, k, f);
    SliceNotEmpty(xs, key, k);
    ScaleAdds(m, |Slice(xs, key, k)|, |others|);
    if others == [] {
      ScaleZero(m);
    } else {
      forall j | j in Keys(others, key) ensures SumBy(Slice(others, key, j), f) > Scale(m, |Slice(others, key, j)|) {
        SliceOfOthers(xs, key, k, j);
        SliceNotEmpty(others, key, j);
        SliceNotEmpty(xs, key, j);
      }
      SlicesAbove(others, key, f, m);
    }
  }

  lemma ScaleAdds(x: real, a: nat, b: nat)
    ensures Scale(x, a + b) == Scale(x, a) + Scale(x, b)
  {
    assert (a + b) as real == a as real + b as real;
  }

  lemma {:induction false} SumNegates<T>(xs: seq<T>, f: T -> real, g: T -> real)
    requires forall x :: g(x) == -f(x)
    ensures SumBy(xs, g) == -SumBy(xs, f)
  {
    if xs != [] {
      SumNegates(xs[1..], f, g);
    }
  }

  lemma BelowIfMean(sum: real, n: real, m: real)
    requires n > 0.0
    ensures sum <= m * n ==> sum / n <= m
    ensures sum >= m * n ==> sum / n >= m
  {
    Difference(sum, n, m);
    if sum <= m * n {
      QuotientNotNegative(m * n - sum, n);
    } else {
      QuotientNotNegative(sum - m * n, n);
    }
  }

  lemma SomeSliceNotAbove<T>(xs: seq<T>, key: T -> string, f: T -> real, m: real) returns (k: string)
    requires xs != [] && SumBy(xs, f) <= Scale(m, |xs|)
    ensures k in Keys(xs, key) && SumBy(Slice(xs, key, k), f) <= Scale(m, |Slice(xs, key, k)|)
  {
    if forall j | j in Keys(xs, key) :: SumBy(Slice(xs, key, j), f) > Scale(m, |Slice(xs, key, j)|) {
      SlicesAbove(xs, key, f, m);
      assert false;
    }
    k :| k in Keys(xs, key) && SumBy(Slice(xs, key, k), f) <= Scale(m, |Slice(xs, key, k)|);
  }

  /** The mean of everything lies between the means of two of its slices. */
  lemma MeanBetweenSlices<T(!new)>(xs: seq<T>, key: T -> string, f: T -> real) returns (lowest: string, highest: string)
    requires xs != []
    ensures lowest in Keys(xs, key) && highest in Keys(xs, key)
    ensures Slice(xs, key, lowest) != [] && Slice(xs, key, highest) != []
    ensures Mean(Slice(xs, key, lowest), f) <= Mean(xs, f) <= Mean(Slice(xs, key, highest), f)
  {
    hide SumBy, Slice, Keys;
    var n := |xs| as real;
    var m := SumBy(xs, f) / n;
    Cancel(SumBy(xs, f), n);
    lowest := SomeSliceNotAbove(xs, key, f, m);
    SliceNotEmpty(xs, key, lowest);
    BelowIfMean(SumBy(Slice(xs, key, lowest), f), |Slice(xs, key, lowest)| as real, m);
    var g := (x: T) => -f(x);
    SumNegates(xs, f, g);
    Minus(m, n);
    highest := SomeSliceNotAbove(xs, key, g, -m);
    SumNegates(Slice(xs, key, highest), f, g);
    SliceNotEmpty(xs, key, highest);
    Minus(m, |Slice(xs, key, highest)| as real);
    BelowIfMean(SumBy(Slice(xs, key, highest), f), |Slice(xs, key, highest)| as real, m);
  }

  lemma Cancel(x: real, n: real)
    requires n > 0.0
    ensures x / n * n == x
  {
  }

  lemma Minus(m: real, n: real)
    ensures (-m) * n == -(m * n)
  {
  }

  // ---------------------------------------------------------------- the interval

  /** A square root, wherever there is one. */
  ghost predicate IsRoot(root: real -> real) {
    forall x | x >= 0.0 :: root(x) >= 0.0 && root(x) * root(x) == x
  }

  /** The tabulated critical values: the entry for the first tabulated degree not below the given one. */
  function Critical(degrees: nat): (t: real)
    ensures 1.96 <= t <= 12.706
  {
    if degrees <= 1 then 12.706
    else if degrees <= 2 then 4.303
    else if degrees <= 3 then 3.182
    else if degrees <= 4 then 2.776
    else if degrees <= 5 then 2.571
    else if degrees <= 6 then 2.447
    else if degrees <= 7 then 2.365
    else if degrees <= 8 then 2.306
    else if degrees <= 9 then 2.262
    else if degrees <= 10 then 2.228
    else if degrees <= 15 then 2.131
    else if degrees <= 20 then 2.086
    else if degrees <= 30 then 2.042
    else 1.96
  }

  function Square(x: real): real { x * x }

  function Variance<T>(xs: seq<T>, f: T -> real): (v: real)
    requires |xs| >= 2
    ensures v >= 0.0
  {
    var mean := Mean(xs, f);
    SquaresAreNotNegative(xs, x => Square(f(x) - mean));
    var ss := SumBy(xs, x => Square(f(x) - mean));
    assert ss / (|xs| - 1) as real >= 0.0 by { QuotientNotNegative(ss, (|xs| - 1) as real); }
    ss / (|xs| - 1) as real
  }

  lemma {:induction false} SquaresAreNotNegative<T>(xs: seq<T>, f: T -> real)
    requires forall x | x in xs :: f(x) >= 0.0
    ensures SumBy(xs, f) >= 0.0
  {
    if xs != [] {
      assert xs[0] in xs;
      assert forall x | x in xs[1..] :: x in xs;
      SquaresAreNotNegative(xs[1..], f);
    }
  }

  lemma VarianceIgnoresOrder<T>(xs: seq<T>, ys: seq<T>, f: T -> real)
    requires |xs| >= 2 && multiset(xs) == multiset(ys)
    ensures |ys| >= 2 && Mean(xs, f) == Mean(ys, f) && Variance(xs, f) == Variance(ys, f)
  {
    SumIgnoresOrder(xs, ys, f);
    var mean := Mean(xs, f);
    SumIgnoresOrder(xs, ys, x => Square(f(x) - mean));
  }

  datatype Interval = Interval(deviation: real, low: real, high: real)

  function Max(x: real, y: real): real { if x < y then y else x }
  function Min(x: real, y: real): real { if x < y then x else y }

  function Margin<T>(root: real -> real, xs: seq<T>, f: T -> real): real
    requires |xs| >= 2
  {
    var n := root(|xs| as real);
    if n == 0.0 then 0.0 else Critical(|xs| - 1) * root(Variance(xs, f)) / n
  }

  /** Deviation and two-sided interval around the mean, rounded; needs two values. */
  function ConfidenceInterval<T>(root: real -> real, xs: seq<T>, f: T -> real): Interval
    requires |xs| >= 2
  {
    var mean, margin := Mean(xs, f), Margin(root, xs, f);
    Interval(Round2(root(Variance(xs, f))), Round2(Max(0.0, mean - margin)), Round2(Min(100.0, mean + margin)))
  }

  lemma MarginIsPositive<T>(root: real -> real, xs: seq<T>, f: T -> real)
    requires |xs| >= 2 && IsRoot(root)
    ensures Margin(root, xs, f) >= 0.0
  {
    var n := root(|xs| as real);
    var c, s := Critical(|xs| - 1), root(Variance(xs, f));
    assert n >= 0.0 && s >= 0.0;
    assert c * s >= 0.0;
    if n > 0.0 {
      QuotientNotNegative(c * s, n);
    }
  }

  /** More values never make the critical value larger; beyond the table it is that of the normal distribution. */
  lemma CriticalFalls(degrees: nat, more: nat)
    requires degrees <= more
    ensures Critical(more) <= Critical(degrees)
    ensures more > 30 ==> Critical(more) == 1.96
  {
  }

  /** What is reported, rounded: the deviation `s` whose square is the sum of squared distances from the mean over
      one less than their number, and the mean less and plus `t * s / sqrt(n)`, cut off at the ends of the scale. */
  lemma IntervalIs<T>(root: real -> real, xs: seq<T>, f: T -> real) returns (s: real, margin: real)
    requires |xs| >= 2 && IsRoot(root)
    ensures var i, n, t := ConfidenceInterval(root, xs, f), |xs| as real, Critical(|xs| - 1);
            var mean := Mean(xs, f);
            && s >= 0.0 && s * s * (n - 1.0) == SumBy(xs, x => Square(f(x) - mean))
            && margin >= 0.0 && margin * margin * n == t * s * (t * s)
            && Within(i.deviation, s, 0.005)
            && Within(i.low, if mean < margin then 0.0 else mean - margin, 0.005)
            && Within(i.high, if mean + margin > 100.0 then 100.0 else mean + margin, 0.005)
  {
    hide Round2, Round4, Mean, SumBy, Critical, Variance, Margin, IsRoot;
    var mean := Mean(xs, f);
    s, margin := root(Variance(xs, f)), Margin(root, xs, f);
    DeviationIs(root, xs, f);
    MarginIs(root, xs, f);
    MarginIsPositive(root, xs, f);
    RoundIsNear(s);
    RoundIsNear(Max(0.0, mean - margin));
    RoundIsNear(Min(100.0, mean + margin));
  }

  lemma DeviationIs<T>(root: real -> real, xs: seq<T>, f: T -> real)
    requires |xs| >= 2 && IsRoot(root)
    ensures var s, mean := root(Variance(xs, f)), Mean(xs, f);
            s >= 0.0 && s * s * (|xs| as real - 1.0) == SumBy(xs, x => Square(f(x) - mean))
  {
    hide Mean, SumBy;
    var mean := Mean(xs, f);
    var ss, n := SumBy(xs, x => Square(f(x) - mean)), (|xs| - 1) as real;
    assert Variance(xs, f) == ss / n;
    Cancel(ss, n);
  }

  lemma MarginIs<T>(root: real -> real, xs: seq<T>, f: T -> real)
    requires |xs| >= 2 && IsRoot(root)
    ensures var margin, y := Margin(root, xs, f), Critical(|xs| - 1) * root(Variance(xs, f));
            margin * margin * |xs| as real == y * y
  {
    hide Variance, Critical;
    var r, y := root(|xs| as real), Critical(|xs| - 1) * root(Variance(xs, f));
    assert r * r == |xs| as real && r > 0.0;
    Cancel(y, r);
    Squared(Margin(root, xs, f), r, y, |xs| as real);
  }

  lemma Squared(x: real, r: real, y: real, n: real)
    requires x * r == y && r * r == n
    ensures x * x * n == y * y
  {
    assert x * x * n == x * r * (x * r);
  }

  /** The reported interval contains the reported mean and stays within the scale. */
  lemma IntervalContainsMean<T>(root: real -> real, xs: seq<T>, f: T -> real)
    requires |xs| >= 2 && IsRoot(root) && forall x | x in xs :: 0.0 <= f(x) <= 100.0
    ensures var i := ConfidenceInterval(root, xs, f);
            0.0 <= i.low <= Round2(Mean(xs, f)) <= i.high <= 100.0 && i.deviation >= 0.0
  {
    hide Round2, Margin, Mean, Variance, Critical;
    var mean, margin := Mean(xs, f), Margin(root, xs, f);
    MeanBounds(xs, f, 0.0, 100.0);
    MarginIsPositive(root, xs, f);
    RoundKeepsIntegers(0);
    RoundKeepsIntegers(100);
    RoundIsMonotone(0.0, Max(0.0, mean - margin));
    RoundIsMonotone(Max(0.0, mean - margin), mean);
    RoundIsMonotone(mean, Min(100.0, mean + margin));
    RoundIsMonotone(Min(100.0, mean + margin), 100.0);
    RoundIsMonotone(0.0, root(Variance(xs, f)));
  }
}
