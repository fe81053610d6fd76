/**
 The Greenwald-Khanna quantile summary of lib/stmpct/gk.h.

 A summary of n observations is a sequence of tuples (v, g, delta).  The sum of
 the g fields up to a tuple is the least rank its value can have, and adding
 delta gives the largest.  Doubles are modelled by `real`, C++ `int` by `int`.
 */
module GkSummary {
  import opened Wrappers
  import opened Numbers
  import opened RealArithmetic

  datatype Tuple = Tuple(v: real, g: int, delta: int)

  // ---------------------------------------------------------------- ranks

  /** Least rank of tuple `i`: the prefix sum of `g` including it (0 before the first). */
  function RMin(s: seq<Tuple>, i: int): int
    requires -1 <= i < |s|
    decreases i + 1
  {
    if i < 0 then 0 else RMin(s, i - 1) + s[i].g
  }

  function RMax(s: seq<Tuple>, i: int): int
    requires 0 <= i < |s|
  {
    RMin(s, i) + s[i].delta
  }

  /** How many observations are at most / strictly below `v`. */
  function CountLe(xs: seq<real>, v: real): nat {
    if xs == [] then 0
    else CountLe(xs[..|xs| - 1], v) + (if xs[|xs| - 1] <= v then 1 else 0)
  }

  function CountLt(xs: seq<real>, v: real): nat {
    if xs == [] then 0
    else CountLt(xs[..|xs| - 1], v) + (if xs[|xs| - 1] < v then 1 else 0)
  }

  // ---------------------------------------------------------------- the invariant

  /** floor(2 * epsilon * n), the error budget after n observations. */
  function TwoEpsilonN(epsilon: real, n: int): int {
    (2.0 * epsilon * n as real).Floor
  }

  function Cap(epsilon: real, n: int): int {
    if TwoEpsilonN(epsilon, n) < 1 then 1 else TwoEpsilonN(epsilon, n)
  }

  ghost predicate Sorted(s: seq<Tuple>) {
    forall i, j :: 0 <= i < j < |s| ==> s[i].v <= s[j].v
  }

  ghost predicate WellFormed(s: seq<Tuple>, cap: int) {
    && (forall i :: 0 <= i < |s| ==> s[i].g >= 1 && s[i].delta >= 0)
    && (forall i :: 0 <= i < |s| ==> s[i].g + s[i].delta <= cap)
  }

  /** Every tuple's value has a true rank between its RMin and its RMax. */
  ghost predicate Ranked(s: seq<Tuple>, xs: seq<real>) {
    forall i :: 0 <= i < |s| ==>
      RMin(s, i) <= CountLe(xs, s[i].v) && CountLt(xs, s[i].v) < RMax(s, i)
  }

  /** The first tuple has rank exactly 1 and the last rank exactly n. */
  ghost predicate ExactEnds(s: seq<Tuple>, n: int) {
    && (|s| == 0 <==> n == 0)
    && (|s| > 0 ==>
          && s[0].g == 1 && s[0].delta == 0
          && s[|s| - 1].delta == 0 && RMin(s, |s| - 1) == n)
  }

  ghost predicate WithinCap(s: seq<Tuple>, xs: seq<real>, cap: int) {
    && Sorted(s)
    && WellFormed(s, cap)
    && Ranked(s, xs)
    && ExactEnds(s, |xs|)
    && (|xs| >= 2 ==> |s| >= 2)
    && (forall i :: 0 <= i < |s| ==> s[i].v in xs)
  }

  /** The summary invariant: `s` summarises the observations `xs` within `epsilon`. */
  ghost predicate Summary(epsilon: real, s: seq<Tuple>, xs: seq<real>) {
    WithinCap(s, xs, Cap(epsilon, |xs|))
  }

  // ---------------------------------------------------------------- insertion

  function FindInsertionIndex(s: seq<Tuple>, v: real, from: nat): (i: nat)
    requires from <= |s|
    ensures from <= i <= |s|
    ensures forall j :: from <= j < i ==> s[j].v < v
    ensures i < |s| ==> v <= s[i].v
    decreases |s| - from
  {
    if from < |s| && s[from].v < v then FindInsertionIndex(s, v, from + 1) else from
  }

  function DetermineDelta(epsilon: real, oneOver2e: int, n: int, s: seq<Tuple>, i: nat): int
    requires i <= |s|
  {
    if n <= oneOver2e then 0
    else if i == 0 || i == |s| then 0
    else TwoEpsilonN(epsilon, n) - 1
  }

  function InsertAt(s: seq<Tuple>, i: nat, t: Tuple): seq<Tuple>
    requires i <= |s|
  {
    s[..i] + [t] + s[i..]
  }

  /** What the code accepts: compress steps two back from the end (line 79). */
  ghost predicate Config(epsilon: real, oneOver2e: int) {
    && 0.0 < epsilon <= 0.25
    && oneOver2e == (1.0 / (2.0 * epsilon)).Floor
  }

  lemma CapMonotone(epsilon: real, m: int, n: int)
    requires 0.0 < epsilon && m <= n
    ensures TwoEpsilonN(epsilon, m) <= TwoEpsilonN(epsilon, n)
    ensures Cap(epsilon, m) <= Cap(epsilon, n)
  {
    assert 2.0 * epsilon * m as real <= 2.0 * epsilon * n as real;
  }

  /** The interior delta is always one less than the budget. */
  lemma DeltaFillsBudget(epsilon: real, oneOver2e: int, n: nat, s: seq<Tuple>, i: nat)
    requires Config(epsilon, oneOver2e)
    requires 0 < i < |s|
    ensures DetermineDelta(epsilon, oneOver2e, n, s, i) == Cap(epsilon, n) - 1
  {
    var two := 2.0 * epsilon;
    var inv := 1.0 / two;
    assert two * inv == 1.0;
    var x := two * n as real;
    assert TwoEpsilonN(epsilon, n) == x.Floor;
    if n <= oneOver2e {
      MulOrder(two, n as real, inv);
      assert x <= 1.0;
    } else {
      MulOrder(two, inv, n as real);
      assert x >= 1.0;
    }
  }

  lemma CountAppend(xs: seq<real>, x: real, v: real)
    ensures CountLe(xs + [x], v) == CountLe(xs, v) + (if x <= v then 1 else 0)
    ensures CountLt(xs + [x], v) == CountLt(xs, v) + (if x < v then 1 else 0)
  {
    assert (xs + [x])[..|xs|] == xs;
  }

  lemma {:induction false} CountOrder(xs: seq<real>, u: real, v: real)
    requires u <= v
    ensures CountLt(xs, u) <= CountLt(xs, v) && CountLe(xs, u) <= CountLe(xs, v)
    ensures u < v ==> CountLe(xs, u) <= CountLt(xs, v)
    ensures CountLt(xs, v) <= CountLe(xs, v) <= |xs|
  {
    if xs != [] {
      CountOrder(xs[..|xs| - 1], u, v);
    }
  }

  lemma {:induction false} RMinInsert(s: seq<Tuple>, i: nat, t: Tuple, j: int)
    requires i <= |s| && -1 <= j <= |s|
    ensures j < i ==> RMin(InsertAt(s, i, t), j) == RMin(s, j)
    ensures j >= i ==> RMin(InsertAt(s, i, t), j) == RMin(s, j - 1) + t.g
    decreases j + 1
  {
    if j >= 0 {
      RMinInsert(s, i, t, j - 1);
    }
  }

  lemma InsertRanked(s: seq<Tuple>, xs: seq<real>, i: nat, x: real, delta: int)
    requires Sorted(s) && Ranked(s, xs) && ExactEnds(s, |xs|)
    requires i <= |s| && delta >= 0
    requires forall j :: 0 <= j < i ==> s[j].v < x
    requires i < |s| ==> x <= s[i].v
    requires 0 < i < |s| ==> s[i].g + s[i].delta <= 1 + delta
    ensures Ranked(InsertAt(s, i, Tuple(x, 1, delta)), xs + [x])
  {
    var t := Tuple(x, 1, delta);
    var s' := InsertAt(s, i, t);
    forall j | 0 <= j < |s'|
      ensures RMin(s', j) <= CountLe(xs + [x], s'[j].v) && CountLt(xs + [x], s'[j].v) < RMax(s', j)
    {
      RMinInsert(s, i, t, j);
      CountAppend(xs, x, s'[j].v);
      if j == i {
        InsertedRanked(s, xs, i, x, delta);
      }
    }
  }

  lemma InsertedRanked(s: seq<Tuple>, xs: seq<real>, i: nat, x: real, delta: int)
    requires Sorted(s) && Ranked(s, xs) && ExactEnds(s, |xs|)
    requires i <= |s| && delta >= 0
    requires forall j :: 0 <= j < i ==> s[j].v < x
    requires i < |s| ==> x <= s[i].v
    requires 0 < i < |s| ==> s[i].g + s[i].delta <= 1 + delta
    ensures RMin(s, i - 1) <= CountLe(xs, x)
    ensures CountLt(xs, x) < RMin(s, i - 1) + 1 + delta
  {
    if i > 0 {
      CountOrder(xs, s[i - 1].v, x);
    }
    if i < |s| {
      CountOrder(xs, x, s[i].v);
    } else {
      CountOrder(xs, x, x);
    }
  }

  lemma InsertSorted(s: seq<Tuple>, i: nat, t: Tuple)
    requires Sorted(s) && i <= |s|
    requires forall j :: 0 <= j < i ==> s[j].v <= t.v
    requires i < |s| ==> t.v <= s[i].v
    ensures Sorted(InsertAt(s, i, t))
  {
    var s' := InsertAt(s, i, t);
    forall a, b | 0 <= a < b < |s'| ensures s'[a].v <= s'[b].v {
      assert a < i ==> s'[a] == s[a];
      assert a > i ==> s'[a] == s[a - 1];
      assert b < i ==> s'[b] == s[b];
      assert b > i ==> s'[b] == s[b - 1];
    }
  }

  lemma InsertShape(s: seq<Tuple>, n: nat, i: nat, t: Tuple, cap: int)
    requires WellFormed(s, cap) && ExactEnds(s, n)
    requires i <= |s| && t.g == 1 && 0 <= t.delta < cap
    requires i == 0 || i == |s| ==> t.delta == 0
    ensures WellFormed(InsertAt(s, i, t), cap) && ExactEnds(InsertAt(s, i, t), n + 1)
  {
    RMinInsert(s, i, t, |s|);
  }

  lemma InsertObserved(s: seq<Tuple>, xs: seq<real>, i: nat, t: Tuple)
    requires i <= |s| && forall j :: 0 <= j < |s| ==> s[j].v in xs
    ensures forall j :: 0 <= j < |InsertAt(s, i, t)| ==> InsertAt(s, i, t)[j].v in xs + [t.v]
  {
    var s' := InsertAt(s, i, t);
    forall j | 0 <= j < |s'| ensures s'[j].v in xs + [t.v] {
      assert s'[j] == if j < i then s[j] else if j == i then t else s[j - 1];
    }
  }

  lemma InsertKeepsSummary(epsilon: real, oneOver2e: int, s: seq<Tuple>, xs: seq<real>, x: real)
    requires Config(epsilon, oneOver2e) && Summary(epsilon, s, xs)
    ensures
      var i := FindInsertionIndex(s, x, 0);
      var t := Tuple(x, 1, DetermineDelta(epsilon, oneOver2e, |xs|, s, i));
      Summary(epsilon, InsertAt(s, i, t), xs + [x])
  {
    var i := FindInsertionIndex(s, x, 0);
    var delta := DetermineDelta(epsilon, oneOver2e, |xs|, s, i);
    CapMonotone(epsilon, |xs|, |xs| + 1);
    if 0 < i < |s| {
      DeltaFillsBudget(epsilon, oneOver2e, |xs|, s, i);
    }
    InsertRanked(s, xs, i, x, delta);
    InsertSorted(s, i, Tuple(x, 1, delta));
    InsertShape(s, |xs|, i, Tuple(x, 1, delta), Cap(epsilon, |xs|));
    InsertObserved(s, xs, i, Tuple(x, 1, delta));
  }

  // ---------------------------------------------------------------- bands

  const MAX_BAND: int := 999999

  /** Largest delta of band `alpha`; band `alpha` is (BandTop(alpha + 1), BandTop(alpha)]. */
  function BandTop(twoEpsilonN: int, alpha: nat): int
    requires alpha >= 1
  {
    twoEpsilonN - Pow2(alpha - 1) - twoEpsilonN % Pow2(alpha - 1)
  }

  ghost predicate InBand(twoEpsilonN: int, alpha: int, d: int) {
    alpha >= 1 && BandTop(twoEpsilonN, alpha + 1) < d <= BandTop(twoEpsilonN, alpha)
  }

  /** Deltas above `top` have been given a band below `alpha`, and bands shrink as delta grows. */
  ghost predicate BandedAbove(n: nat, bands: seq<int>, top: int, alpha: int) {
    && |bands| == n + 1 && bands[n] == 0
    && (forall d :: top < d < n && 0 < d ==> InBand(n, bands[d], d) && bands[d] < alpha)
    && (forall c, d :: top < c <= d <= n && 0 < c ==> bands[c] >= bands[d])
  }

  /** One pass of the outer loop: band `alpha` is exactly (lower, upper]. */
  lemma BandStep(n: nat, before: seq<int>, after: seq<int>, lower: int, upper: int, alpha: nat)
    requires 1 <= alpha && 0 <= lower <= upper < n
    requires BandTop(n, alpha) == upper && (if BandTop(n, alpha + 1) < 0 then 0 else BandTop(n, alpha + 1)) == lower
    requires BandedAbove(n, before, upper, alpha) && |after| == n + 1
    requires forall d :: 0 <= d <= n ==> after[d] == if lower < d <= upper then alpha else before[d]
    ensures BandedAbove(n, after, BandTop(n, alpha + 1), alpha + 1)
  {
    var next := BandTop(n, alpha + 1);
    forall d | next < d < n && 0 < d ensures InBand(n, after[d], d) && after[d] < alpha + 1 {
      if d <= upper {
        assert InBand(n, alpha, d);
      } else {
        assert after[d] == before[d];
      }
    }
  }

  lemma BandTopsStep(n: nat, alpha: nat)
    requires alpha >= 1 && Pow2(alpha - 1) < n
    ensures 0 <= BandTop(n, alpha) < n
    ensures BandTop(n, alpha + 1) <= BandTop(n, alpha)
    ensures BandTop(n, alpha + 1) == n - 2 * Pow2(alpha - 1) - n % (2 * Pow2(alpha - 1))
  {
    var p := Pow2(alpha - 1);
    assert Pow2(alpha) == 2 * p;
    RemainderFits(n, p);
  }

  lemma RemainderFits(n: nat, p: nat)
    requires 0 < p <= n
    ensures n % p <= n - p
  {
    var q, r := n / p, n % p;
    assert n == q * p + r && 0 <= r < p;
    assert q >= 1;
    MulAtLeast(q, p);
  }

  lemma MulAtLeast(q: int, p: int)
    requires q >= 1 && p >= 0
    ensures q * p >= p
  {
  }

  /** Lines 109-114. */
  method BandRange(n: nat, alpha: nat) returns (lower: nat, upper: nat)
    requires alpha >= 1 && Pow2(alpha - 1) < n
    ensures lower <= upper < n && upper == BandTop(n, alpha)
    ensures lower == if BandTop(n, alpha + 1) < 0 then 0 else BandTop(n, alpha + 1)
  {
    var p := Pow2(alpha - 1);
    BandTopsStep(n, alpha);
    var l := n - 2 * p - n % (2 * p);
    lower := if l < 0 then 0 else l;
    upper := n - p - n % p;
  }

  lemma BandedBelow(n: nat, bands: seq<int>, top: int, top': int, alpha: int)
    requires BandedAbove(n, bands, top, alpha) && top <= top'
    ensures BandedAbove(n, bands, top', alpha)
  {
  }

  method FillBand(before: seq<int>, lower: nat, upper: nat, alpha: int) returns (bands: seq<int>)
    requires lower <= upper < |before|
    ensures |bands| == |before|
    ensures forall d :: 0 <= d < |bands| ==> bands[d] == if lower < d <= upper then alpha else before[d]
  {
    bands := before;
    for i := lower + 1 to upper + 1
      invariant |bands| == |before|
      invariant forall d :: 0 <= d < |bands| ==> bands[d] == if lower < d < i then alpha else before[d]
    {
      bands := bands[i := alpha];
    }
  }

  /** The delta to band table of lines 102-121. */
  method ConstructBandLookup(twoEpsilonN: nat) returns (bands: seq<int>)
    ensures |bands| == twoEpsilonN + 1
    ensures twoEpsilonN > 0 ==> bands[0] == MAX_BAND
    ensures BandedAbove(twoEpsilonN, bands, 0, if twoEpsilonN > 0 then CeilLog2(twoEpsilonN) + 1 else 1)
  {
    var n := twoEpsilonN;
    bands := seq(n + 1, _ => 0);
    bands := bands[0 := MAX_BAND];
    bands := bands[n := 0];
    if n > 0 {
      var last := CeilLog2(n);
      var alpha := 1;
      assert BandTop(n, 1) == n - 1;
      while alpha <= last
        invariant 1 <= alpha <= last + 1
        invariant BandedAbove(n, bands, BandTop(n, alpha), alpha)
        invariant bands[0] == MAX_BAND
      {
        Pow2Monotone(alpha - 1, last - 1);
        var lower, upper := BandRange(n, alpha);
        var after := FillBand(bands, lower, upper, alpha);
        BandStep(n, bands, after, lower, upper, alpha);
        bands := after;
        alpha := alpha + 1;
      }
      BandTopsEnd(n, last);
      BandedBelow(n, bands, BandTop(n, alpha), 0, alpha);
    }
  }

  lemma ModOfSmaller(n: nat, p: nat)
    requires 1 <= n <= p
    ensures n % p == if n < p then n else 0
  {
    if n == p {
      assert n % n == 0;
    }
  }

  lemma BandTopsEnd(n: nat, last: nat)
    requires n >= 1 && last == CeilLog2(n)
    ensures BandTop(n, last + 1) <= 0
  {
    var p := Pow2(last);
    ModOfSmaller(n, p);
  }

  // ---------------------------------------------------------------- compress

  ghost predicate DeltasWithin(s: seq<Tuple>, bands: seq<int>) {
    forall i :: 0 <= i < |s| ==> 0 <= s[i].delta < |bands|
  }

  /** First tuple of the run of strictly smaller bands that ends at `it` (lines 84-89). */
  function GroupStart(s: seq<Tuple>, bands: seq<int>, it: nat, start: nat): (r: nat)
    requires 1 <= start <= it < |s| && DeltasWithin(s, bands)
    ensures 1 <= r <= start
  {
    if start != 1 && bands[s[start - 1].delta] < bands[s[it].delta]
    then GroupStart(s, bands, it, start - 1) else start
  }

  /** Sum of g over s[start..it]. */
  function GroupWeight(s: seq<Tuple>, start: nat, it: nat): int
    requires start <= it < |s|
  {
    RMin(s, it) - RMin(s, start - 1)
  }

  /** Replaces s[start..it + 1] by one tuple carrying the value and delta of s[it + 1]. */
  function MergeRange(s: seq<Tuple>, start: nat, it: nat): seq<Tuple>
    requires 1 <= start <= it < |s| - 1
  {
    s[..start] + [Tuple(s[it + 1].v, GroupWeight(s, start, it) + s[it + 1].g, s[it + 1].delta)] + s[it + 2..]
  }

  function CompressFrom(s: seq<Tuple>, bands: seq<int>, twoEpsilonN: int, it: nat): seq<Tuple>
    requires it < |s| - 1 && DeltasWithin(s, bands)
    decreases it
  {
    if it == 0 then s
    else if Merges(s, bands, twoEpsilonN, it) then
      var start := GroupStart(s, bands, it, it);
      CompressFrom(MergeRange(s, start, it), bands, twoEpsilonN, start - 1)
    else CompressFrom(s, bands, twoEpsilonN, it - 1)
  }

  /** The tests of lines 82 and 90. */
  predicate Merges(s: seq<Tuple>, bands: seq<int>, twoEpsilonN: int, it: nat)
    requires 1 <= it < |s| - 1 && DeltasWithin(s, bands)
  {
    && bands[s[it].delta] <= bands[s[it + 1].delta]
    && GroupWeight(s, GroupStart(s, bands, it, it), it) + s[it + 1].g + s[it + 1].delta < twoEpsilonN
  }

  /** `t` keeps the tuples of `s` at the indices `keep`, with value, delta and rank bounds unchanged. */
  ghost predicate Thins(s: seq<Tuple>, t: seq<Tuple>, keep: seq<int>) {
    && |t| == |keep| >= 2
    && keep[0] == 0 && keep[|keep| - 1] == |s| - 1
    && (forall i, j :: 0 <= i < j < |keep| ==> keep[i] < keep[j])
    && (forall j :: 0 <= j < |keep| ==>
          0 <= keep[j] < |s| && t[j].v == s[keep[j]].v && t[j].delta == s[keep[j]].delta
          && RMin(t, j) == RMin(s, keep[j]))
  }

  lemma {:induction false} RMinMerge(s: seq<Tuple>, start: nat, it: nat, j: int)
    requires 1 <= start <= it < |s| - 1
    requires -1 <= j < |MergeRange(s, start, it)|
    ensures RMin(MergeRange(s, start, it), j) == RMin(s, if j < start then j else j + (it + 1 - start))
    decreases j + 1
  {
    if j >= 0 {
      RMinMerge(s, start, it, j - 1);
      var t := MergeRange(s, start, it);
      if j > start {
        assert t[j] == s[j + (it + 1 - start)];
      } else if j < start {
        assert t[j] == s[j];
      }
    }
  }

  lemma MergeThins(s: seq<Tuple>, start: nat, it: nat) returns (keep: seq<int>)
    requires 1 <= start <= it < |s| - 1
    ensures Thins(s, MergeRange(s, start, it), keep)
  {
    var t := MergeRange(s, start, it);
    keep := seq(|t|, j => if j < start then j else j + (it + 1 - start));
    forall j | 0 <= j < |t|
      ensures t[j].v == s[keep[j]].v && t[j].delta == s[keep[j]].delta && RMin(t, j) == RMin(s, keep[j])
    {
      RMinMerge(s, start, it, j);
    }
  }

  lemma ThinsTrans(s: seq<Tuple>, t: seq<Tuple>, u: seq<Tuple>, k1: seq<int>, k2: seq<int>) returns (keep: seq<int>)
    requires Thins(s, t, k1) && Thins(t, u, k2)
    ensures Thins(s, u, keep)
  {
    keep := seq(|u|, j requires 0 <= j < |u| => k1[k2[j]]);
  }

  /** Compress only removes tuples, and merges only below the budget. */
  lemma {:induction false} CompressThins(s: seq<Tuple>, bands: seq<int>, twoEpsilonN: int, it: nat, cap: int)
    returns (keep: seq<int>)
    requires it < |s| - 1 && DeltasWithin(s, bands) && twoEpsilonN <= cap
    requires WellFormed(s, cap)
    ensures Thins(s, CompressFrom(s, bands, twoEpsilonN, it), keep)
    ensures WellFormed(CompressFrom(s, bands, twoEpsilonN, it), cap)
    decreases it
  {
    if it == 0 {
      keep := seq(|s|, j => j);
    } else {
      if Merges(s, bands, twoEpsilonN, it) {
        var start := GroupStart(s, bands, it, it);
        var t := MergeRange(s, start, it);
        var k1 := MergeThins(s, start, it);
        MergeWellFormed(s, start, it, cap);
        var k2 := CompressThins(t, bands, twoEpsilonN, start - 1, cap);
        keep := ThinsTrans(s, t, CompressFrom(t, bands, twoEpsilonN, start - 1), k1, k2);
      } else {
        keep := CompressThins(s, bands, twoEpsilonN, it - 1, cap);
      }
    }
  }

  lemma MergeWellFormed(s: seq<Tuple>, start: nat, it: nat, cap: int)
    requires 1 <= start <= it < |s| - 1 && WellFormed(s, cap)
    requires GroupWeight(s, start, it) + s[it + 1].g + s[it + 1].delta < cap
    ensures WellFormed(MergeRange(s, start, it), cap)
  {
    GroupWeightPositive(s, start, it);
  }

  lemma {:induction false} GroupWeightPositive(s: seq<Tuple>, start: nat, it: nat)
    requires start <= it < |s|
    requires forall i :: 0 <= i < |s| ==> s[i].g >= 1
    ensures GroupWeight(s, start, it) >= 1
  {
    if start < it {
      GroupWeightPositive(s, start, it - 1);
    }
  }

  /** A thinned summary still summarises the same observations. */
  lemma ThinningKeepsSummary(s: seq<Tuple>, t: seq<Tuple>, keep: seq<int>, xs: seq<real>, cap: int)
    requires WithinCap(s, xs, cap) && Thins(s, t, keep) && WellFormed(t, cap)
    ensures WithinCap(t, xs, cap)
  {
    assert RMin(t, 0) == t[0].g && RMin(s, 0) == s[0].g;
    forall i | 0 <= i < |t|
      ensures RMin(t, i) <= CountLe(xs, t[i].v) && CountLt(xs, t[i].v) < RMax(t, i)
    {
      assert RMax(t, i) == RMax(s, keep[i]);
    }
  }

  // ---------------------------------------------------------------- quantile

  /** The test of line 34: tuple `i` is within `en` of rank `r`. */
  predicate Answers(s: seq<Tuple>, r: int, en: real, i: int)
    requires 0 <= i < |s|
  {
    r as real - RMin(s, i) as real <= en && RMax(s, i) as real - r as real <= en
  }

  /** Walks back to the last tuple whose RMax does not exceed r + en; it answers. */
  lemma {:induction false} WalkBack(s: seq<Tuple>, r: int, en: real, cap: int, j: int) returns (i: int)
    requires 0 <= j < |s| - 1 && en > 0.0
    requires WellFormed(s, cap) && (cap == 1 || cap as real <= 2.0 * en)
    requires RMax(s, 0) as real - r as real <= en < RMax(s, j + 1) as real - r as real
    ensures 0 <= i < |s| && Answers(s, r, en, i)
    decreases j
  {
    assert RMax(s, j + 1) == RMin(s, j) + s[j + 1].g + s[j + 1].delta;
    if RMax(s, j) as real - r as real > en {
      i := WalkBack(s, r, en, cap, j - 1);
    } else {
      i := j;
      StepBound(RMin(s, j), RMax(s, j + 1), r, en, cap);
    }
  }

  lemma StepBound(rmin: int, rmaxNext: int, r: int, en: real, cap: int)
    requires en > 0.0 && rmaxNext - rmin <= cap && (cap == 1 || cap as real <= 2.0 * en)
    requires rmaxNext as real - r as real > en
    ensures r as real - rmin as real <= en
  {
    if cap == 1 {
      assert rmaxNext > r;
    }
  }

  /** Some tuple answers every rank that lies within epsilon * n of [1, n]. */
  lemma SomeTupleAnswers(epsilon: real, s: seq<Tuple>, xs: seq<real>, r: int, en: real) returns (i: int)
    requires 0.0 < epsilon && |xs| >= 1 && Summary(epsilon, s, xs) && en == Slack(epsilon, |xs|)
    requires NearRange(r, |xs|, en)
    ensures 0 <= i < |s| && Answers(s, r, en, i)
  {
    var n := |xs|;
    MulOrderStrict(epsilon, 0.0, n as real);
    assert RMin(s, 0) == 1;
    i := |s| - 1;
    if n as real - r as real > en {
      CapWithin(epsilon, n);
      i := WalkBack(s, r, en, Cap(epsilon, n), |s| - 2);
    }
  }

  lemma CapWithin(epsilon: real, n: nat)
    ensures TwoEpsilonN(epsilon, n) as real <= 2.0 * (epsilon * n as real)
  {
    assert 2.0 * epsilon * n as real == 2.0 * (epsilon * n as real);
  }

  lemma {:induction false} RMinRange(s: seq<Tuple>, i: int)
    requires 0 <= i < |s|
    requires forall j :: 0 <= j < |s| ==> s[j].g >= 1
    ensures 1 <= RMin(s, i) <= RMin(s, |s| - 1)
    decreases |s| - i
  {
    GroupWeightPositive(s, 0, i);
    if i < |s| - 1 {
      RMinRange(s, i + 1);
    }
  }

  /** For which values of epsilon the modulo of line 22 is defined, and the second insert skips compress. */
  lemma SecondInsertSkipsCompress(epsilon: real, oneOver2e: int)
    requires 0.0 < epsilon && oneOver2e == (1.0 / (2.0 * epsilon)).Floor
    ensures oneOver2e >= 0
    ensures oneOver2e == 0 <==> epsilon > 0.5
    ensures oneOver2e != 0 && 1 % oneOver2e != 0 <==> epsilon <= 0.25
  {
    var two := 2.0 * epsilon;
    var inv := 1.0 / two;
    assert two * inv == 1.0;
    if inv < 0.0 { MulOrder(two, inv, 0.0); }
    BoundInverse(two, inv, 1.0);
    BoundInverse(two, inv, 2.0);
  }

  lemma BoundInverse(x: real, inv: real, c: real)
    requires x > 0.0 && x * inv == 1.0
    ensures inv >= c <==> x * c <= 1.0
  {
    if inv < c {
      MulOrderStrict(x, inv, c);
    } else {
      MulOrder(x, c, inv);
    }
  }

  /** An insert divides by `m_one_over_2e` (line 22), and compress steps two back from the end (line 79). */
  ghost predicate InsertDefined(oneOver2e: int, n: int, s: seq<Tuple>) {
    oneOver2e != 0 && (n % oneOver2e == 0 ==> |s| != 1)
  }

  /** The first two inserts are defined if and only if epsilon is at most 1/4, whatever is inserted. */
  lemma FirstInsertsDefinedIff(epsilon: real, oneOver2e: int, v: real)
    requires 0.0 < epsilon && oneOver2e == (1.0 / (2.0 * epsilon)).Floor
    ensures InsertDefined(oneOver2e, 0, []) <==> epsilon <= 0.5
    ensures
      InsertDefined(oneOver2e, 0, []) && InsertDefined(oneOver2e, 1, Inserted(epsilon, oneOver2e, 0, [], v))
      <==> epsilon <= 0.25
  {
    SecondInsertSkipsCompress(epsilon, oneOver2e);
  }

  /** Up to 1/4 every later insert is defined too. */
  lemma EveryInsertDefined(epsilon: real, oneOver2e: int, s: seq<Tuple>, xs: seq<real>)
    requires Config(epsilon, oneOver2e) && Summary(epsilon, s, xs)
    ensures InsertDefined(oneOver2e, |xs|, s)
  {
    SecondInsertSkipsCompress(epsilon, oneOver2e);
  }

  // ---------------------------------------------------------------- the class

  /** What one compress does to the tuples. */
  ghost predicate Compressed(s: seq<Tuple>, t: seq<Tuple>, twoEpsilonN: int) {
    if s == [] then t == []
    else
      |s| >= 2 && twoEpsilonN >= 0 && exists bands: seq<int> ::
        && |bands| == twoEpsilonN + 1 && DeltasWithin(s, bands)
        && (twoEpsilonN > 0 ==> bands[0] == MAX_BAND)
        && BandedAbove(twoEpsilonN, bands, 0, if twoEpsilonN > 0 then CeilLog2(twoEpsilonN) + 1 else 1)
        && t == CompressFrom(s, bands, twoEpsilonN, |s| - 2)
  }

  function Inserted(epsilon: real, oneOver2e: int, n: int, s: seq<Tuple>, v: real): seq<Tuple> {
    var i := FindInsertionIndex(s, v, 0);
    InsertAt(s, i, Tuple(v, 1, DetermineDelta(epsilon, oneOver2e, n, s, i)))
  }

  lemma CapCovers(epsilon: real, n: nat)
    requires 0.0 < epsilon
    ensures 0 <= TwoEpsilonN(epsilon, n) <= Cap(epsilon, n) <= TwoEpsilonN(epsilon, n) + 1
  {
    MulOrder(2.0 * epsilon, 0.0, n as real);
  }

  class Gk {
    const epsilon: real
    const oneOver2e: int
    var n: int
    var s: seq<Tuple>
    ghost var observed: seq<real>

    ghost predicate Valid()
      reads this
    {
      Config(epsilon, oneOver2e) && n == |observed| && Summary(epsilon, s, observed)
    }

    /** Any positive epsilon is accepted; see FirstInsertsDefinedIff for which of them can be used. */
    constructor (epsilon: real)
      requires epsilon > 0.0
      ensures this.epsilon == epsilon && n == 0 && s == [] && observed == []
      ensures oneOver2e == (1.0 / (2.0 * epsilon)).Floor
      ensures epsilon <= 0.25 <==> Valid()
    {
      this.epsilon := epsilon;
      this.oneOver2e := (1.0 / (2.0 * epsilon)).Floor;
      n := 0;
      s := [];
      observed := [];
    }

    method Insert(v: real)
      requires Valid()
      modifies this
      ensures Valid()
      ensures observed == old(observed) + [v]
      ensures exists mid ::
        && (if old(n) % oneOver2e == 0 then Compressed(old(s), mid, TwoEpsilonN(epsilon, old(n))) else mid == old(s))
        && s == Inserted(epsilon, oneOver2e, old(n), mid, v)
    {
      EveryInsertDefined(epsilon, oneOver2e, s, observed);
      if n % oneOver2e == 0 {
        Compress();
      }
      InsertKeepsSummary(epsilon, oneOver2e, s, observed, v);
      DoInsert(v);
      n := n + 1;
      observed := observed + [v];
    }

    /** What a caller sees of an insert. */
    method Observe(v: real)
      requires Valid()
      modifies this
      ensures Valid() && observed == old(observed) + [v]
    {
      Insert(v);
    }

    method DoInsert(v: real)
      modifies this`s
      ensures s == Inserted(epsilon, oneOver2e, n, old(s), v)
    {
      var it := 0;
      while it < |s| && s[it].v < v
        invariant 0 <= it <= |s|
        invariant FindInsertionIndex(s, v, 0) == FindInsertionIndex(s, v, it)
      {
        it := it + 1;
      }
      s := s[..it] + [Tuple(v, 1, DetermineDelta(epsilon, oneOver2e, n, s, it))] + s[it..];
    }

    method Compress()
      requires Valid() && n != 1
      modifies this`s
      ensures Valid()
      ensures Compressed(old(s), s, TwoEpsilonN(epsilon, n))
    {
      if s == [] {
        return;
      }
      CapCovers(epsilon, n);
      var twoEpsilonN := TwoEpsilonN(epsilon, n);
      var bands := ConstructBandLookup(twoEpsilonN);
      assert DeltasWithin(s, bands);
      ghost var keep := CompressThins(s, bands, twoEpsilonN, |s| - 2, Cap(epsilon, n));
      CompressLoop(bands, twoEpsilonN);
      ThinningKeepsSummary(old(s), s, keep, observed, Cap(epsilon, n));
    }

    /** Lines 83-89: the run of tuples merged together, and its weight. */
    method FindGroup(bands: seq<int>, it: nat) returns (start: nat, gStar: int)
      requires 1 <= it < |s| && DeltasWithin(s, bands)
      ensures start == GroupStart(s, bands, it, it) && gStar == GroupWeight(s, start, it)
    {
      start, gStar := it, s[it].g;
      while start != 1 && bands[s[start - 1].delta] < bands[s[it].delta]
        invariant 1 <= start <= it && gStar == GroupWeight(s, start, it)
        invariant GroupStart(s, bands, it, start) == GroupStart(s, bands, it, it)
      {
        start := start - 1;
        gStar := gStar + s[start].g;
      }
    }

    method CompressLoop(bands: seq<int>, twoEpsilonN: int)
      requires |s| >= 2 && DeltasWithin(s, bands)
      modifies this`s
      ensures s == CompressFrom(old(s), bands, twoEpsilonN, |old(s)| - 2)
    {
      var it := |s| - 2;
      while it != 0
        invariant 0 <= it < |s| - 1 && DeltasWithin(s, bands)
        invariant CompressFrom(s, bands, twoEpsilonN, it) == CompressFrom(old(s), bands, twoEpsilonN, |old(s)| - 2)
        decreases it
      {
        if bands[s[it].delta] <= bands[s[it + 1].delta] {
          var start, gStar := FindGroup(bands, it);
          if gStar + s[it + 1].g + s[it + 1].delta < twoEpsilonN {
            var merged := Tuple(s[it + 1].v, gStar + s[it + 1].g, s[it + 1].delta);
            assert s[..start] + [merged] + s[it + 2..] == MergeRange(s, start, it);
            s := s[..start] + [merged] + s[it + 2..];
            it := start;
          }
        }
        it := it - 1;
      }
    }

    /** Returns the first tuple that answers rank ceil(phi * n); None stands for `T{}`. */
    method Quantile(phi: real) returns (q: Option<real>)
      requires Valid()
      ensures q.Some? <==> n >= 1 && NearRange(Rank(phi, n), n, Slack(epsilon, n))
      ensures q.Some? ==> q.value in observed && Accurate(observed, q.value, Rank(phi, n), Slack(epsilon, n))
    {
      var en := Slack(epsilon, n);
      var r := Rank(phi, n);
      var it := FirstAnswer(s, r, en);
      if it < |s| {
        AnswerIsAccurate(epsilon, s, observed, r, en, it);
        return Some(s[it].v);
      }
      if n >= 1 && NearRange(r, n, en) {
        ghost var i := SomeTupleAnswers(epsilon, s, observed, r, en);
        assert false;
      }
      return None;
    }
  }

  function Rank(phi: real, n: int): int {
    Ceil(phi * n as real)
  }

  function Slack(epsilon: real, n: int): real {
    epsilon * n as real
  }

  /** `r` is within `en` of some rank in [1, n]. */
  ghost predicate NearRange(r: int, n: int, en: real) {
    1.0 - r as real <= en && r as real - n as real <= en
  }

  /** At least r - en observations are at most `v` and fewer than r + en are below it. */
  ghost predicate Accurate(xs: seq<real>, v: real, r: int, en: real) {
    r as real - en <= CountLe(xs, v) as real && CountLt(xs, v) as real < r as real + en
  }

  /** The scan of lines 30-35. */
  method FirstAnswer(s: seq<Tuple>, r: int, en: real) returns (it: nat)
    ensures it <= |s|
    ensures it < |s| ==> Answers(s, r, en, it)
    ensures forall i :: 0 <= i < it ==> !Answers(s, r, en, i)
  {
    var rmin := 0;
    it := 0;
    while it < |s|
      invariant 0 <= it <= |s| && rmin == RMin(s, it - 1)
      invariant forall i :: 0 <= i < it ==> !Answers(s, r, en, i)
    {
      rmin := rmin + s[it].g;
      var rmax := rmin + s[it].delta;
      if r as real - rmin as real <= en && rmax as real - r as real <= en {
        return;
      }
      it := it + 1;
    }
  }

  /** A tuple that answers rank r bounds the true ranks of its value, and r is near [1, n]. */
  lemma AnswerIsAccurate(epsilon: real, s: seq<Tuple>, xs: seq<real>, r: int, en: real, i: int)
    requires Summary(epsilon, s, xs) && 0 <= i < |s| && Answers(s, r, en, i)
    ensures Accurate(xs, s[i].v, r, en)
    ensures |xs| >= 1 && NearRange(r, |xs|, en)
  {
    RMinRange(s, i);
  }

  /** Whole runs: after any sequence of inserts every quantile is answered within epsilon * n. */
  method SummarizeAndQuery(epsilon: real, xs: seq<real>, phi: real) returns (q: Option<real>)
    requires 0.0 < epsilon <= 0.25 && |xs| >= 1 && 0.0 < phi <= 1.0
    ensures q.Some? && q.value in xs
    ensures Accurate(xs, q.value, Rank(phi, |xs|), Slack(epsilon, |xs|))
  {
    var gk := Summarize(epsilon, xs);
    RankInRange(epsilon, phi, |xs|);
    q := gk.Quantile(phi);
  }

  method Summarize(epsilon: real, xs: seq<real>) returns (gk: Gk)
    requires 0.0 < epsilon <= 0.25
    ensures fresh(gk) && gk.Valid() && gk.epsilon == epsilon && gk.observed == xs
  {
    gk := new Gk(epsilon);
    for i := 0 to |xs|
      invariant fresh(gk) && gk.Valid() && gk.epsilon == epsilon && gk.observed == xs[..i]
    {
      gk.Observe(xs[i]);
      assert xs[..i + 1] == xs[..i] + [xs[i]];
    }
    assert xs[..|xs|] == xs;
  }

  lemma RankInRange(epsilon: real, phi: real, n: nat)
    requires 0.0 < epsilon && n >= 1 && 0.0 < phi <= 1.0
    ensures 1 <= Rank(phi, n) <= n && Slack(epsilon, n) > 0.0
  {
    var x := n as real;
    MulOrderStrict(phi, 0.0, x);
    MulOrderStrict(epsilon, 0.0, x);
    MulOrder(x, phi, 1.0);
    assert phi * x == x * phi;
    assert 0.0 < phi * x <= x;
  }
}
