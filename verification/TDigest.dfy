/**
 The t-digest of lib/tdigest/TDigest.h: weighted centroids, their compaction for an arbitrary
 cluster-limit function, and quantile lookup.  Doubles are modelled by `real`; the scale
 functions integratedLocation and integratedQ are arbitrary functions.
 */
module TDigest {
  import opened Wrappers
  import opened RealArithmetic
  import opened Sequences

  datatype Centroid = Centroid(mean: real, weight: real)

  // ---------------------------------------------------------------- sums over centroids

  function Weight(c: Centroid): real { c.weight }
  function Moment(c: Centroid): real { c.mean * c.weight }

  /** Sum of f over the first n centroids. */
  function SumTo(cs: seq<Centroid>, f: Centroid -> real, n: nat): real
    requires n <= |cs|
  {
    if n == 0 then 0.0 else SumTo(cs, f, n - 1) + f(cs[n - 1])
  }

  function Sum(cs: seq<Centroid>, f: Centroid -> real): real {
    SumTo(cs, f, |cs|)
  }

  lemma {:induction false} SumToPrefix(a: seq<Centroid>, b: seq<Centroid>, f: Centroid -> real, n: nat)
    requires n <= |a| && n <= |b| && forall i :: 0 <= i < n ==> a[i] == b[i]
    ensures SumTo(a, f, n) == SumTo(b, f, n)
  {
    if n > 0 {
      SumToPrefix(a, b, f, n - 1);
    }
  }

  lemma SumPush(cs: seq<Centroid>, c: Centroid, f: Centroid -> real)
    ensures Sum(cs + [c], f) == Sum(cs, f) + f(c)
  {
    SumToPrefix(cs + [c], cs, f, |cs|);
  }

  lemma {:induction false} SumAppend(a: seq<Centroid>, b: seq<Centroid>, f: Centroid -> real)
    ensures Sum(a + b, f) == Sum(a, f) + Sum(b, f)
  {
    if b == [] {
      assert a + b == a;
    } else {
      var l := |b| - 1;
      SumAppend(a, b[..l], f);
      SumPush(a + b[..l], b[l], f);
      SumPush(b[..l], b[l], f);
      assert a + b[..l] + [b[l]] == a + b && b[..l] + [b[l]] == b;
    }
  }

  lemma SumRemove(b: seq<Centroid>, i: nat, f: Centroid -> real)
    requires i < |b|
    ensures Sum(b, f) == Sum(b[..i] + b[i + 1..], f) + f(b[i])
  {
    SumAppend(b[..i], b[i + 1..], f);
    SumPush(b[..i], b[i], f);
    SumAppend(b[..i] + [b[i]], b[i + 1..], f);
    assert b[..i] + [b[i]] + b[i + 1..] == b;
  }

  lemma TakeOne(a: seq<Centroid>, k: nat)
    requires k < |a|
    ensures multiset(a[..k + 1]) == multiset(a[..k]) + multiset{a[k]}
  {
    assert a[..k + 1] == a[..k] + [a[k]];
  }

  lemma RemoveOne(b: seq<Centroid>, i: nat)
    requires i < |b|
    ensures multiset(b) == multiset(b[..i] + b[i + 1..]) + multiset{b[i]}
  {
    assert b == b[..i] + [b[i]] + b[i + 1..];
  }

  lemma CancelOne(m: multiset<Centroid>, n: multiset<Centroid>, c: Centroid)
    requires m + multiset{c} == n + multiset{c}
    ensures m == n
  {
    assert m == (m + multiset{c}) - multiset{c};
    assert n == (n + multiset{c}) - multiset{c};
  }

  /** Reordering does not change a sum. */
  lemma {:induction false} SumOfPermutation(a: seq<Centroid>, b: seq<Centroid>, f: Centroid -> real)
    requires multiset(a) == multiset(b)
    ensures Sum(a, f) == Sum(b, f)
    decreases |a|
  {
    if a == [] {
      assert |multiset(b)| == 0;
    } else {
      var l := |a| - 1;
      assert a[l] in multiset(b);
      var i :| 0 <= i < |b| && b[i] == a[l];
      var rest := b[..i] + b[i + 1..];
      TakeOne(a, l);
      assert a[..l + 1] == a && a[..l] + [a[l]] == a;
      RemoveOne(b, i);
      CancelOne(multiset(rest), multiset(a[..l]), a[l]);
      SumOfPermutation(a[..l], rest, f);
      SumRemove(b, i, f);
      SumPush(a[..l], a[l], f);
    }
  }

  // ---------------------------------------------------------------- sorting

  ghost predicate Sorted(cs: seq<Centroid>) {
    forall i, j :: 0 <= i < j < |cs| ==> cs[i].mean <= cs[j].mean
  }

  ghost predicate Positive(cs: seq<Centroid>) {
    forall i :: 0 <= i < |cs| ==> cs[i].weight > 0.0
  }

  lemma PositiveOfPermutation(a: seq<Centroid>, b: seq<Centroid>)
    requires Positive(a) && multiset(a) == multiset(b)
    ensures Positive(b)
  {
    forall i | 0 <= i < |b| ensures b[i].weight > 0.0 {
      assert b[i] in multiset(a);
    }
  }

  method InsertSorted(s: seq<Centroid>, c: Centroid) returns (r: seq<Centroid>)
    requires Sorted(s)
    ensures Sorted(r) && multiset(r) == multiset(s) + multiset{c}
  {
    var p: nat := |s|;
    while p > 0 && c.mean < s[p - 1].mean
      invariant p <= |s| && forall i :: p <= i < |s| ==> c.mean < s[i].mean
    {
      p := p - 1;
    }
    r := s[..p] + [c] + s[p..];
    InsertAddsOne(s, p, c);
    InsertKeepsSorted(s, p, c);
  }

  lemma InsertKeepsSorted(s: seq<Centroid>, p: nat, c: Centroid)
    requires Sorted(s) && p <= |s| && (forall i :: p <= i < |s| ==> c.mean < s[i].mean)
    requires p > 0 ==> s[p - 1].mean <= c.mean
    ensures Sorted(s[..p] + [c] + s[p..])
  {
  }

  /** std::sort by mean, as an insertion sort. */
  method SortByMean(cs: seq<Centroid>) returns (r: seq<Centroid>)
    ensures Sorted(r) && multiset(r) == multiset(cs)
  {
    r := [];
    for k := 0 to |cs|
      invariant Sorted(r) && multiset(r) == multiset(cs[..k])
    {
      TakeOne(cs, k);
      r := InsertSorted(r, cs[k]);
    }
    assert cs[..|cs|] == cs;
  }

  /** r merges the first i of a and the first j of b and lies below what is left. */
  ghost predicate Merging(a: seq<Centroid>, i: nat, b: seq<Centroid>, j: nat, r: seq<Centroid>) {
    && i <= |a| && j <= |b| && Sorted(a) && Sorted(b) && Sorted(r)
    && multiset(r) == multiset(a[..i]) + multiset(b[..j])
    && (r != [] && i < |a| ==> r[|r| - 1].mean <= a[i].mean)
    && (r != [] && j < |b| ==> r[|r| - 1].mean <= b[j].mean)
  }

  lemma MergeTakes(a: seq<Centroid>, i: nat, b: seq<Centroid>, j: nat, r: seq<Centroid>)
    requires Merging(a, i, b, j, r) && i < |a| && (j < |b| ==> a[i].mean <= b[j].mean)
    ensures Merging(a, i + 1, b, j, r + [a[i]]) && Merging(b, j, a, i + 1, r + [a[i]])
  {
    TakeOne(a, i);
    SortedPush(r, a[i]);
  }

  /** std::inplace_merge of two sorted halves; ties take the left one. */
  method MergeSorted(a: seq<Centroid>, b: seq<Centroid>) returns (r: seq<Centroid>)
    requires Sorted(a) && Sorted(b)
    ensures Sorted(r) && multiset(r) == multiset(a) + multiset(b)
  {
    var i, j := 0, 0;
    r := [];
    while i < |a| || j < |b|
      invariant Merging(a, i, b, j, r) && Merging(b, j, a, i, r)
      decreases |a| - i + |b| - j
    {
      if j == |b| || (i < |a| && !(b[j].mean < a[i].mean)) {
        MergeTakes(a, i, b, j, r);
        r, i := r + [a[i]], i + 1;
      } else {
        MergeTakes(b, j, a, i, r);
        r, j := r + [b[j]], j + 1;
      }
    }
    assert a[..i] == a && b[..j] == b;
  }

  lemma SortedPush(r: seq<Centroid>, c: Centroid)
    requires Sorted(r) && (r != [] ==> r[|r| - 1].mean <= c.mean)
    ensures Sorted(r + [c])
  {
  }

  // ---------------------------------------------------------------- combining centroids

  /** Centroid::add. */
  function Combined(a: Centroid, b: Centroid): Centroid
    requires a.weight == 0.0 || a.weight + b.weight != 0.0
  {
    if a.weight != 0.0 then
      var w := a.weight + b.weight;
      Centroid(a.mean + b.weight * (b.mean - a.mean) / w, w)
    else b
  }

  /** Weight and weighted mean are conserved. */
  lemma CombineConserves(a: Centroid, b: Centroid)
    requires a.weight == 0.0 || a.weight + b.weight != 0.0
    ensures Weight(Combined(a, b)) == Weight(a) + Weight(b)
    ensures Moment(Combined(a, b)) == Moment(a) + Moment(b)
  {
    if a.weight != 0.0 {
      var w := a.weight + b.weight;
      var x := b.weight * (b.mean - a.mean);
      assert (x / w) * w == x;
      assert (a.mean + x / w) * w == a.mean * w + x;
      assert a.mean * w == a.mean * a.weight + a.mean * b.weight;
      assert x == b.weight * b.mean - b.weight * a.mean;
    }
  }

  /** The combined mean lies between the two. */
  lemma CombineBetween(a: Centroid, b: Centroid)
    requires a.weight > 0.0 && b.weight > 0.0 && a.mean <= b.mean
    ensures a.mean <= Combined(a, b).mean <= b.mean
  {
    var w, d := a.weight + b.weight, b.mean - a.mean;
    MulOrder(b.weight, 0.0, d);
    MulOrder(d, b.weight, w);
    DivOrder(0.0, b.weight * d, w);
    DivOrder(b.weight * d, w * d, w);
    assert w * d / w == d;
  }

  // ---------------------------------------------------------------- compaction

  /** Scale functions of the digest. */
  datatype Scale = Scale(location: real -> real, quantile: real -> real)

  /** What compaction keeps after consuming the first k merged centroids. */
  ghost predicate Compacted(merged: seq<Centroid>, k: nat, cs: seq<Centroid>) {
    && 0 < k <= |merged| && cs != [] && Sorted(cs) && Positive(cs)
    && merged[0].mean <= cs[0].mean && cs[|cs| - 1].mean <= merged[k - 1].mean
    && Sum(cs, Weight) == SumTo(merged, Weight, k) && Sum(cs, Moment) == SumTo(merged, Moment, k)
  }

  lemma CompactJoin(merged: seq<Centroid>, k: nat, cs: seq<Centroid>)
    requires Compacted(merged, k, cs) && k < |merged| && Sorted(merged) && Positive(merged)
    ensures
      var l := |cs| - 1;
      Compacted(merged, k + 1, cs[..l] + [Combined(cs[l], merged[k])])
  {
    var l := |cs| - 1;
    CombineBetween(cs[l], merged[k]);
    CombineConserves(cs[l], merged[k]);
    SortedPush(cs[..l], Combined(cs[l], merged[k]));
    JoinSums(cs, merged[k], Weight);
    JoinSums(cs, merged[k], Moment);
  }

  lemma JoinSums(cs: seq<Centroid>, c: Centroid, f: Centroid -> real)
    requires cs != [] && (cs[|cs| - 1].weight == 0.0 || cs[|cs| - 1].weight + c.weight != 0.0)
    requires f(Combined(cs[|cs| - 1], c)) == f(cs[|cs| - 1]) + f(c)
    ensures Sum(cs[..|cs| - 1] + [Combined(cs[|cs| - 1], c)], f) == Sum(cs, f) + f(c)
  {
    var l := |cs| - 1;
    SumPush(cs[..l], Combined(cs[l], c), f);
    SumPush(cs[..l], cs[l], f);
    assert cs[..l] + [cs[l]] == cs;
  }

  lemma CompactPush(merged: seq<Centroid>, k: nat, cs: seq<Centroid>)
    requires Compacted(merged, k, cs) && k < |merged| && Sorted(merged) && Positive(merged)
    ensures Compacted(merged, k + 1, cs + [merged[k]])
  {
    SortedPush(cs, merged[k]);
    SumPush(cs, merged[k], Weight);
    SumPush(cs, merged[k], Moment);
  }

  /** The limit of a cluster that starts at merged[start], counted in weight from the left end. */
  function LimitFrom(total: real, scale: Scale, start: nat, soFar: real): real
    requires total > 0.0
  {
    total * scale.quantile(if start == 0 then 1.0 else scale.location(soFar / total) + 1.0)
  }

  /** The same, by the weight of the merged centroids before it. */
  function LimitAt(merged: seq<Centroid>, total: real, scale: Scale, start: nat): real
    requires total > 0.0
  {
    LimitFrom(total, scale, start, if start <= |merged| then SumTo(merged, Weight, start) else 0.0)
  }

  /** The weight stays within the limit while the centroids a + 1 to b are taken. */
  ghost predicate StaysBelow(merged: seq<Centroid>, a: nat, b: nat, limit: real)
    requires b <= |merged|
    decreases b
  {
    b <= a || (SumTo(merged, Weight, b) <= limit && StaysBelow(merged, a, b - 1, limit))
  }

  /** c stands for merged[a..b], and every centroid after the first fitted under the limit. */
  ghost predicate Cluster(merged: seq<Centroid>, a: nat, b: nat, limit: real, c: Centroid) {
    && a < b <= |merged|
    && Weight(c) == SumTo(merged, Weight, b) - SumTo(merged, Weight, a)
    && Moment(c) == SumTo(merged, Moment, b) - SumTo(merged, Moment, a)
    && StaysBelow(merged, a + 1, b, limit)
  }

  ghost predicate Overflows(merged: seq<Centroid>, k: nat, limit: real) {
    k < |merged| && SumTo(merged, Weight, k + 1) > limit
  }

  /** The first k merged centroids are cut greedily: a cluster takes the next centroid exactly
      when the weight including it is within the limit fixed where the cluster starts. */
  ghost predicate Clustering(merged: seq<Centroid>, k: nat, total: real, scale: Scale, starts: seq<nat>, cs: seq<Centroid>)
    requires total > 0.0
    decreases |starts|
  {
    && |starts| == |cs| > 0
    && var l, at := |cs| - 1, starts[|cs| - 1];
    && Cluster(merged, at, k, LimitAt(merged, total, scale, at), cs[l])
    && (if l == 0 then at == 0
        else
          && Overflows(merged, at, LimitAt(merged, total, scale, starts[l - 1]))
          && Clustering(merged, at, total, scale, starts[..l], cs[..l]))
  }

  lemma ClusterGrows(merged: seq<Centroid>, a: nat, b: nat, limit: real, c: Centroid)
    requires Cluster(merged, a, b, limit, c) && b < |merged| && c.weight > 0.0 && merged[b].weight > 0.0
    requires !Overflows(merged, b, limit)
    ensures Cluster(merged, a, b + 1, limit, Combined(c, merged[b]))
  {
    CombineConserves(c, merged[b]);
  }

  lemma SingletonCluster(merged: seq<Centroid>, k: nat, limit: real)
    requires k < |merged|
    ensures Cluster(merged, k, k + 1, limit, merged[k])
  {
  }

  lemma ClusterTakes(merged: seq<Centroid>, k: nat, total: real, scale: Scale, starts: seq<nat>, cs: seq<Centroid>)
    requires total > 0.0
    requires Clustering(merged, k, total, scale, starts, cs) && k < |merged|
    requires cs[|cs| - 1].weight > 0.0 && merged[k].weight > 0.0
    requires !Overflows(merged, k, LimitAt(merged, total, scale, starts[|starts| - 1]))
    ensures
      var l := |cs| - 1;
      Clustering(merged, k + 1, total, scale, starts, cs[..l] + [Combined(cs[l], merged[k])])
  {
    var l := |cs| - 1;
    ClusterGrows(merged, starts[l], k, LimitAt(merged, total, scale, starts[l]), cs[l]);
    assert (cs[..l] + [Combined(cs[l], merged[k])])[..l] == cs[..l];
  }

  lemma ClusterCloses(merged: seq<Centroid>, k: nat, total: real, scale: Scale, starts: seq<nat>, cs: seq<Centroid>)
    requires total > 0.0
    requires Clustering(merged, k, total, scale, starts, cs)
    requires Overflows(merged, k, LimitAt(merged, total, scale, starts[|starts| - 1]))
    ensures Clustering(merged, k + 1, total, scale, starts + [k], cs + [merged[k]])
  {
    SingletonCluster(merged, k, LimitAt(merged, total, scale, k));
    assert (starts + [k])[..|cs|] == starts && (cs + [merged[k]])[..|cs|] == cs;
  }

  lemma ClusteringStart(merged: seq<Centroid>, total: real, scale: Scale)
    requires total > 0.0
    requires merged != []
    ensures Clustering(merged, 1, total, scale, [0], [merged[0]])
  {
    SingletonCluster(merged, 0, LimitAt(merged, total, scale, 0));
  }

  /** The first k merged centroids are compacted, and limit is that of the last cluster. */
  ghost predicate CompactedTo(merged: seq<Centroid>, k: nat, total: real, scale: Scale, starts: seq<nat>, cs: seq<Centroid>, limit: real)
    requires total > 0.0
  {
    Compacted(merged, k, cs) && Clustering(merged, k, total, scale, starts, cs) && limit == LimitAt(merged, total, scale, starts[|starts| - 1])
  }

  lemma Join(merged: seq<Centroid>, k: nat, total: real, scale: Scale, starts: seq<nat>, cs: seq<Centroid>, limit: real)
    requires total > 0.0
    requires CompactedTo(merged, k, total, scale, starts, cs, limit) && k < |merged| && Sorted(merged) && Positive(merged)
    requires SumTo(merged, Weight, k + 1) <= limit
    ensures CompactedTo(merged, k + 1, total, scale, starts, cs[..|cs| - 1] + [Combined(cs[|cs| - 1], merged[k])], limit)
  {
    CompactJoin(merged, k, cs);
    ClusterTakes(merged, k, total, scale, starts, cs);
  }

  lemma Push(merged: seq<Centroid>, k: nat, total: real, scale: Scale, starts: seq<nat>, cs: seq<Centroid>, limit: real)
    requires total > 0.0
    requires CompactedTo(merged, k, total, scale, starts, cs, limit) && k < |merged| && Sorted(merged) && Positive(merged)
    requires SumTo(merged, Weight, k + 1) > limit
    ensures CompactedTo(merged, k + 1, total, scale, starts + [k], cs + [merged[k]], LimitAt(merged, total, scale, k))
  {
    CompactPush(merged, k, cs);
    ClusterCloses(merged, k, total, scale, starts, cs);
  }

  /** Lines 483-496: the next centroid joins the last cluster or starts a new one. */
  method Take(merged: seq<Centroid>, k: nat, cs: seq<Centroid>, soFar: real, limit: real, total: real, scale: Scale, ghost starts: seq<nat>)
    returns (cs': seq<Centroid>, soFar': real, limit': real, ghost starts': seq<nat>)
    requires total > 0.0 && k < |merged| && Sorted(merged) && Positive(merged) && soFar == SumTo(merged, Weight, k)
    requires CompactedTo(merged, k, total, scale, starts, cs, limit)
    ensures CompactedTo(merged, k + 1, total, scale, starts', cs', limit')
    ensures soFar' == SumTo(merged, Weight, k + 1)
  {
    var c := merged[k];
    soFar' := soFar + c.weight;
    if soFar' <= limit {
      Join(merged, k, total, scale, starts, cs, limit);
      cs', limit', starts' := cs[..|cs| - 1] + [Combined(cs[|cs| - 1], c)], limit, starts;
    } else {
      Push(merged, k, total, scale, starts, cs, limit);
      cs', limit', starts' := cs + [c], LimitFrom(total, scale, k, soFar), starts + [k];
    }
  }

  /** Lines 480-497: joins neighbours while the projected weight stays within the limit. */
  method Compact(merged: seq<Centroid>, total: real, scale: Scale) returns (cs: seq<Centroid>, ghost starts: seq<nat>)
    requires merged != [] && Sorted(merged) && Positive(merged) && total == Sum(merged, Weight) && total > 0.0
    ensures Compacted(merged, |merged|, cs)
    ensures Clustering(merged, |merged|, total, scale, starts, cs)
  {
    cs, starts := [merged[0]], [0];
    var soFar := merged[0].weight;
    var limit := LimitFrom(total, scale, 0, 0.0);
    CompactStart(merged);
    ClusteringStart(merged, total, scale);
    for k := 1 to |merged|
      invariant CompactedTo(merged, k, total, scale, starts, cs, limit)
      invariant soFar == SumTo(merged, Weight, k)
    {
      cs, soFar, limit, starts := Take(merged, k, cs, soFar, limit, total, scale, starts);
    }
  }

  lemma CompactStart(merged: seq<Centroid>)
    requires merged != [] && Positive(merged)
    ensures Compacted(merged, 1, [merged[0]])
  {
    SumToPrefix([merged[0]], merged, Weight, 1);
    SumToPrefix([merged[0]], merged, Moment, 1);
  }

  lemma MergedFacts(unprocessed: seq<Centroid>, processed: seq<Centroid>, merged: seq<Centroid>)
    requires multiset(merged) == multiset(unprocessed) + multiset(processed)
    requires Positive(unprocessed) && Positive(processed) && (unprocessed != [] || processed != [])
    ensures merged != [] && Positive(merged) && Sum(merged, Weight) > 0.0
    ensures Sum(merged, Weight) == Sum(processed, Weight) + Sum(unprocessed, Weight)
    ensures Sum(merged, Moment) == Sum(processed, Moment) + Sum(unprocessed, Moment)
  {
    var all := unprocessed + processed;
    assert multiset(all) == multiset(merged);
    assert all != [];
    assert |merged| == |multiset(merged)| == |multiset(all)| == |all|;
    PositiveOfPermutation(all, merged);
    SumNonNegative(merged, |merged|);
    SumOfPermutation(merged, all, Weight);
    SumOfPermutation(merged, all, Moment);
    SumAppend(unprocessed, processed, Weight);
    SumAppend(unprocessed, processed, Moment);
  }

  /** Every mean lies in [lo, hi]. */
  ghost predicate InHull(cs: seq<Centroid>, lo: real, hi: real) {
    forall i :: 0 <= i < |cs| ==> lo <= cs[i].mean <= hi
  }

  /** Compaction leaves no mean outside the range of the inputs. */
  lemma CondensedInHull(unprocessed: seq<Centroid>, processed: seq<Centroid>, merged: seq<Centroid>, cs: seq<Centroid>,
                        lo: real, hi: real)
    requires multiset(merged) == multiset(unprocessed) + multiset(processed)
    requires Compacted(merged, |merged|, cs) && InHull(unprocessed, lo, hi) && InHull(processed, lo, hi)
    ensures InHull(cs, lo, hi)
  {
    forall i | 0 <= i < |merged| ensures lo <= merged[i].mean <= hi {
      assert merged[i] in multiset(merged);
      assert merged[i] in unprocessed || merged[i] in processed;
    }
  }

  /** cs is a greedy clustering of all given centroids in the order of their means. */
  ghost predicate Clusters(unprocessed: seq<Centroid>, processed: seq<Centroid>, total: real, scale: Scale, cs: seq<Centroid>,
                           merged: seq<Centroid>, starts: seq<nat>)
    requires total > 0.0
  {
    && multiset(merged) == multiset(unprocessed) + multiset(processed) && Sorted(merged)
    && Clustering(merged, |merged|, total, scale, starts, cs)
  }

  ghost predicate Clustered(unprocessed: seq<Centroid>, processed: seq<Centroid>, total: real, scale: Scale, cs: seq<Centroid>) {
    total > 0.0 && exists merged, starts :: Clusters(unprocessed, processed, total, scale, cs, merged, starts)
  }

  /** Lines 470-497: sort, merge and compact, conserving weight and weighted sum. */
  method Condense(unprocessed: seq<Centroid>, processed: seq<Centroid>, total: real, scale: Scale)
    returns (cs: seq<Centroid>, ghost merged: seq<Centroid>, ghost starts: seq<nat>)
    requires Positive(unprocessed) && Positive(processed) && Sorted(processed)
    requires unprocessed != [] || processed != []
    requires total == Sum(processed, Weight) + Sum(unprocessed, Weight)
    ensures cs != [] && Sorted(cs) && Positive(cs)
    ensures Sum(cs, Weight) == Sum(processed, Weight) + Sum(unprocessed, Weight)
    ensures Sum(cs, Moment) == Sum(processed, Moment) + Sum(unprocessed, Moment)
    ensures forall lo, hi :: InHull(unprocessed, lo, hi) && InHull(processed, lo, hi) ==> InHull(cs, lo, hi)
    ensures total > 0.0 && Clusters(unprocessed, processed, total, scale, cs, merged, starts)
  {
    var sorted := SortByMean(unprocessed);
    var all := MergeSorted(sorted, processed);
    merged := all;
    MergedFacts(unprocessed, processed, merged);
    cs, starts := Compact(all, total, scale);
    forall lo, hi | InHull(unprocessed, lo, hi) && InHull(processed, lo, hi) ensures InHull(cs, lo, hi) {
      CondensedInHull(unprocessed, processed, merged, cs, lo, hi);
    }
  }

  // ---------------------------------------------------------------- cumulative weights

  /** Weight up to the middle of each of the first n centroids. */
  function Middles(cs: seq<Centroid>, n: nat): (m: seq<real>)
    requires n <= |cs|
    ensures |m| == n
  {
    if n == 0 then [] else Middles(cs, n - 1) + [SumTo(cs, Weight, n - 1) + cs[n - 1].weight / 2.0]
  }

  ghost predicate IsCumulative(cum: seq<real>, cs: seq<Centroid>) {
    cum == Middles(cs, |cs|) + [Sum(cs, Weight)]
  }

  /** updateCumulative. */
  method Cumulative(cs: seq<Centroid>) returns (cum: seq<real>)
    ensures IsCumulative(cum, cs)
  {
    var previous := 0.0;
    cum := [];
    for i := 0 to |cs|
      invariant previous == SumTo(cs, Weight, i) && cum == Middles(cs, i)
    {
      var current := cs[i].weight;
      cum := cum + [previous + current / 2.0];
      previous := previous + current;
    }
    cum := cum + [previous];
  }

  lemma {:induction false} MiddleOf(cs: seq<Centroid>, n: nat, i: nat)
    requires i < n <= |cs|
    ensures Middles(cs, n)[i] == SumTo(cs, Weight, i) + cs[i].weight / 2.0
  {
    if i < n - 1 {
      MiddleOf(cs, n - 1, i);
    }
  }

  ghost predicate Increasing(cum: seq<real>) {
    forall i, j :: 0 <= i < j < |cum| ==> cum[i] < cum[j]
  }

  lemma {:induction false} CumulativeStep(cum: seq<real>, cs: seq<Centroid>, i: nat, j: nat)
    requires IsCumulative(cum, cs) && Positive(cs) && i < j < |cum|
    ensures cum[i] < cum[j]
    decreases j
  {
    MiddleOf(cs, |cs|, j - 1);
    if j < |cs| {
      MiddleOf(cs, |cs|, j);
    }
    assert SumTo(cs, Weight, j) == SumTo(cs, Weight, j - 1) + Weight(cs[j - 1]);
    if i < j - 1 {
      CumulativeStep(cum, cs, i, j - 1);
    }
  }

  /** Positive weights make the cumulative weights strictly increasing. */
  lemma CumulativeIncreases(cum: seq<real>, cs: seq<Centroid>)
    requires IsCumulative(cum, cs) && Positive(cs)
    ensures Increasing(cum)
  {
    forall i, j | 0 <= i < j < |cum| ensures cum[i] < cum[j] {
      CumulativeStep(cum, cs, i, j);
    }
  }

  // ---------------------------------------------------------------- quantiles

  function WeightedAverageSorted(x1: real, w1: real, x2: real, w2: real): real
    requires w1 + w2 != 0.0
  {
    var x := (x1 * w1 + x2 * w2) / (w1 + w2);
    var y := if x2 < x then x2 else x;
    if x1 < y then y else x1
  }

  function WeightedAverage(x1: real, w1: real, x2: real, w2: real): real
    requires w1 + w2 != 0.0
  {
    if x1 <= x2 then WeightedAverageSorted(x1, w1, x2, w2) else WeightedAverageSorted(x2, w2, x1, w1)
  }

  /** std::lower_bound: the first entry from `from` on that is not below x. */
  function LowerBound(c: seq<real>, x: real, from: nat): (i: nat)
    requires from <= |c|
    ensures from <= i <= |c|
    decreases |c| - from
  {
    if from == |c| || c[from] >= x then from else LowerBound(c, x, from + 1)
  }

  lemma {:induction false} LowerBoundFacts(c: seq<real>, x: real, from: nat)
    requires from <= |c|
    ensures var i := LowerBound(c, x, from);
      (i < |c| ==> c[i] >= x) && forall j :: from <= j < i ==> c[j] < x
    decreases |c| - from
  {
    if from < |c| && c[from] < x {
      LowerBoundFacts(c, x, from + 1);
    }
  }

  /** A processed digest with at least one centroid. */
  ghost predicate Digest(cs: seq<Centroid>, cum: seq<real>, min: real, max: real) {
    && cs != [] && Sorted(cs) && Positive(cs) && IsCumulative(cum, cs)
    && min <= cs[0].mean && cs[|cs| - 1].mean <= max
  }

  /** How far into the first half of a centroid of weight w the index lies. */
  function Fraction(index: real, w: real): real
    requires w > 0.0
  {
    2.0 * index / w
  }

  function Head(min: real, c: Centroid, index: real): real
    requires c.weight > 0.0
  {
    min + Times(Fraction(index, c.weight), c.mean - min)
  }

  function Middle(m1: real, c1: real, m2: real, c2: real, index: real): real
    requires c1 < c2
  {
    WeightedAverage(m1, c2 - index, m2, index - c1)
  }

  function Tail(c: Centroid, max: real, total: real, index: real): real
    requires c.weight > 0.0
  {
    var z1 := index - total - c.weight / 2.0;
    WeightedAverage(c.mean, z1, max, c.weight / 2.0 - z1)
  }

  /** The interpolation piece an index falls in: 0 before the first middle, |cs| after the last. */
  function Piece(cs: seq<Centroid>, cum: seq<real>, index: real): (i: nat)
    requires cs != [] && |cum| == |cs| + 1
    ensures i <= |cum|
  {
    if index <= cs[0].weight / 2.0 then 0 else LowerBound(cum, index, 0)
  }

  lemma PieceFacts(cs: seq<Centroid>, cum: seq<real>, min: real, max: real, index: real)
    requires Digest(cs, cum, min, max) && index <= cum[|cs|]
    ensures var i := Piece(cs, cum, index);
      && i <= |cs| && (i == 0 <==> index <= cs[0].weight / 2.0)
      && (0 < i ==> cum[i - 1] < index <= cum[i] && cum[i - 1] < cum[i])
  {
    LowerBoundFacts(cum, index, 0);
    CumulativeIncreases(cum, cs);
    MiddleOf(cs, |cs|, 0);
  }

  /** Lines 316-331: the value at a weight offset. */
  function ValueAt(cs: seq<Centroid>, cum: seq<real>, min: real, max: real, total: real, index: real): real
    requires Digest(cs, cum, min, max) && 0.0 <= index <= total == cum[|cs|]
  {
    PieceFacts(cs, cum, min, max, index);
    var i, n := Piece(cs, cum, index), |cs|;
    if i == 0 then Head(min, cs[0], index)
    else if i < n then Middle(cs[i - 1].mean, cum[i - 1], cs[i].mean, cum[i], index)
    else Tail(cs[n - 1], max, total, index)
  }

  function QuantileProcessed(cs: seq<Centroid>, cum: seq<real>, min: real, max: real, total: real, q: real): Option<real>
    requires cs != [] ==> Digest(cs, cum, min, max) && total == cum[|cs|]
  {
    if q < 0.0 || q > 1.0 || cs == [] then None
    else if |cs| == 1 then Some(cs[0].mean)
    else
      IndexInRange(cs, cum, min, max, total, q);
      Some(ValueAt(cs, cum, min, max, total, Index(q, total)))
  }

  function Index(q: real, total: real): real {
    q * total
  }

  lemma IndexInRange(cs: seq<Centroid>, cum: seq<real>, min: real, max: real, total: real, q: real)
    requires Digest(cs, cum, min, max) && total == cum[|cs|] && 0.0 <= q <= 1.0
    ensures 0.0 <= Index(q, total) <= total
  {
    SumNonNegative(cs, |cs|);
    IndexOrder(0.0, q, total);
    IndexOrder(q, 1.0, total);
  }

  lemma IndexOrder(p: real, q: real, total: real)
    requires p <= q && total >= 0.0
    ensures Index(p, total) <= Index(q, total)
  {
    MulOrder(total, p, q);
  }

  lemma {:induction false} SumNonNegative(cs: seq<Centroid>, n: nat)
    requires Positive(cs) && n <= |cs|
    ensures SumTo(cs, Weight, n) >= 0.0 && (n > 0 ==> SumTo(cs, Weight, n) > 0.0)
  {
    if n > 0 {
      SumNonNegative(cs, n - 1);
    }
  }

  // ---------------------------------------------------------------- range and monotonicity

  lemma HeadMonotone(min: real, c: Centroid, x: real, y: real)
    requires c.weight > 0.0 && min <= c.mean && 0.0 <= x <= y <= c.weight / 2.0
    ensures min <= Head(min, c, x) <= Head(min, c, y) <= c.mean
  {
    FractionOrder(x, y, c.weight);
    ScaleOrder(Fraction(x, c.weight), Fraction(y, c.weight), c.mean - min);
  }

  lemma FractionOrder(x: real, y: real, w: real)
    requires w > 0.0 && 0.0 <= x <= y <= w / 2.0
    ensures 0.0 <= Fraction(x, w) <= Fraction(y, w) <= 1.0
  {
    DivOrder(0.0, 2.0 * x, w);
    DivOrder(2.0 * x, 2.0 * y, w);
    DivOrder(2.0 * y, w, w);
    DivSelf(w);
  }

  lemma ScaleOrder(f: real, g: real, d: real)
    requires 0.0 <= f <= g <= 1.0 && d >= 0.0
    ensures 0.0 <= Times(f, d) <= Times(g, d) <= d
  {
    TimesOrder(0.0, f, d);
    TimesOrder(f, g, d);
    TimesOrder(g, 1.0, d);
    TimesEnds(d);
  }

  lemma MiddleRange(m1: real, c1: real, m2: real, c2: real, x: real)
    requires c1 < c2 && m1 <= m2
    ensures m1 <= Middle(m1, c1, m2, c2, x) <= m2
  {
  }

  lemma MiddleMonotone(m1: real, c1: real, m2: real, c2: real, x: real, y: real)
    requires c1 < c2 && m1 <= m2 && x <= y
    ensures Middle(m1, c1, m2, c2, x) <= Middle(m1, c1, m2, c2, y)
  {
    var w := c2 - c1;
    assert (c2 - x) + (x - c1) == w && (c2 - y) + (y - c1) == w;
    BlendOrder(m1, c1, m2, c2, x, y);
    DivOrder(m1 * (c2 - x) + m2 * (x - c1), m1 * (c2 - y) + m2 * (y - c1), w);
  }

  lemma BlendOrder(m1: real, c1: real, m2: real, c2: real, x: real, y: real)
    requires m1 <= m2 && x <= y
    ensures m1 * (c2 - x) + m2 * (x - c1) <= m1 * (c2 - y) + m2 * (y - c1)
  {
    var d := y - x;
    MulOrder(d, m1, m2);
    assert m1 * (c2 - x) == m1 * (c2 - y) + m1 * d;
    assert m2 * (y - c1) == m2 * (x - c1) + m2 * d;
  }

  /** The offset past the last middle gets a negative weight, so the clamp always yields max. */
  lemma TailIsMax(c: Centroid, max: real, total: real, index: real)
    requires c.weight > 0.0 && c.mean <= max && index <= total
    ensures Tail(c, max, total, index) == max
  {
    var h := c.weight / 2.0;
    var z1 := index - total - h;
    TailNumerator(c.mean, max, z1, h);
    AverageAbove(c.mean, z1, max, h - z1);
  }

  lemma TailNumerator(m: real, max: real, z: real, h: real)
    requires m <= max && z <= 0.0
    ensures m * z + max * (h - z) >= max * h
  {
    MulOrder(-z, m, max);
    assert -z * m == -(m * z) && -z * max == -(max * z);
    assert max * (h - z) == max * h - max * z;
  }

  /** An average pushed above its upper value is clamped to it. */
  lemma AverageAbove(x1: real, w1: real, x2: real, w2: real)
    requires x1 <= x2 && w1 + w2 > 0.0 && x1 * w1 + x2 * w2 >= x2 * (w1 + w2)
    ensures WeightedAverage(x1, w1, x2, w2) == x2
  {
    var w := w1 + w2;
    DivOrder(x2 * w, x1 * w1 + x2 * w2, w);
    DivBack(x2, w);
  }

  function LowEnd(cs: seq<Centroid>, min: real, max: real, i: nat): real
    requires i <= |cs|
  {
    if i == 0 then min else if i < |cs| then cs[i - 1].mean else max
  }

  function HighEnd(cs: seq<Centroid>, max: real, i: nat): real
    requires i <= |cs|
  {
    if i < |cs| then cs[i].mean else max
  }

  lemma ValueInPiece(cs: seq<Centroid>, cum: seq<real>, min: real, max: real, total: real, x: real)
    requires Digest(cs, cum, min, max) && 0.0 <= x <= total == cum[|cs|]
    ensures var i := Piece(cs, cum, x);
      i <= |cs| && LowEnd(cs, min, max, i) <= ValueAt(cs, cum, min, max, total, x) <= HighEnd(cs, max, i)
  {
    PieceFacts(cs, cum, min, max, x);
    var i := Piece(cs, cum, x);
    if i == 0 {
      HeadMonotone(min, cs[0], x, x);
    } else if i < |cs| {
      MiddleRange(cs[i - 1].mean, cum[i - 1], cs[i].mean, cum[i], x);
    } else {
      TailIsMax(cs[i - 1], max, total, x);
    }
  }

  lemma ValueInRange(cs: seq<Centroid>, cum: seq<real>, min: real, max: real, total: real, x: real)
    requires Digest(cs, cum, min, max) && 0.0 <= x <= total == cum[|cs|]
    ensures min <= ValueAt(cs, cum, min, max, total, x) <= max
  {
    ValueInPiece(cs, cum, min, max, total, x);
    var i := Piece(cs, cum, x);
    assert min <= LowEnd(cs, min, max, i) && HighEnd(cs, max, i) <= max;
  }

  lemma PieceMonotone(cs: seq<Centroid>, cum: seq<real>, min: real, max: real, x: real, y: real)
    requires Digest(cs, cum, min, max) && x <= y <= cum[|cs|]
    ensures Piece(cs, cum, x) <= Piece(cs, cum, y)
  {
    PieceFacts(cs, cum, min, max, x);
    PieceFacts(cs, cum, min, max, y);
    var i, j := Piece(cs, cum, x), Piece(cs, cum, y);
    LowerBoundFacts(cum, x, 0);
    LowerBoundFacts(cum, y, 0);
  }

  lemma SamePieceMonotone(cs: seq<Centroid>, cum: seq<real>, min: real, max: real, total: real, x: real, y: real)
    requires Digest(cs, cum, min, max) && 0.0 <= x <= y <= total == cum[|cs|]
    requires Piece(cs, cum, x) == Piece(cs, cum, y)
    ensures ValueAt(cs, cum, min, max, total, x) <= ValueAt(cs, cum, min, max, total, y)
  {
    PieceFacts(cs, cum, min, max, x);
    PieceFacts(cs, cum, min, max, y);
    var i := Piece(cs, cum, x);
    if i == 0 {
      HeadMonotone(min, cs[0], x, y);
    } else if i < |cs| {
      MiddleMonotone(cs[i - 1].mean, cum[i - 1], cs[i].mean, cum[i], x, y);
    } else {
      TailIsMax(cs[i - 1], max, total, x);
      TailIsMax(cs[i - 1], max, total, y);
    }
  }

  lemma EndsOrdered(cs: seq<Centroid>, min: real, max: real, i: nat, j: nat)
    requires cs != [] && Sorted(cs) && cs[|cs| - 1].mean <= max && i < j <= |cs|
    ensures HighEnd(cs, max, i) <= LowEnd(cs, min, max, j)
  {
  }

  lemma ValueMonotone(cs: seq<Centroid>, cum: seq<real>, min: real, max: real, total: real, x: real, y: real)
    requires Digest(cs, cum, min, max) && 0.0 <= x <= y <= total == cum[|cs|]
    ensures ValueAt(cs, cum, min, max, total, x) <= ValueAt(cs, cum, min, max, total, y)
  {
    PieceMonotone(cs, cum, min, max, x, y);
    var i, j := Piece(cs, cum, x), Piece(cs, cum, y);
    if i < j {
      ValueInPiece(cs, cum, min, max, total, x);
      ValueInPiece(cs, cum, min, max, total, y);
      EndsOrdered(cs, min, max, i, j);
    } else {
      SamePieceMonotone(cs, cum, min, max, total, x, y);
    }
  }

  /** Quantiles exist exactly for q in [0, 1] on a non-empty digest and stay within [min, max]. */
  lemma QuantileInRange(cs: seq<Centroid>, cum: seq<real>, min: real, max: real, total: real, q: real)
    requires cs != [] ==> Digest(cs, cum, min, max) && total == cum[|cs|]
    ensures var r := QuantileProcessed(cs, cum, min, max, total, q);
      (r.Some? <==> 0.0 <= q <= 1.0 && cs != []) && (r.Some? ==> min <= r.value <= max)
  {
    if 0.0 <= q <= 1.0 && |cs| > 1 {
      IndexInRange(cs, cum, min, max, total, q);
      ValueInRange(cs, cum, min, max, total, Index(q, total));
    }
  }

  /** Quantiles are monotone in q. */
  lemma QuantileMonotone(cs: seq<Centroid>, cum: seq<real>, min: real, max: real, total: real, p: real, q: real)
    requires Digest(cs, cum, min, max) && total == cum[|cs|] && 0.0 <= p <= q <= 1.0
    ensures QuantileProcessed(cs, cum, min, max, total, p).value
         <= QuantileProcessed(cs, cum, min, max, total, q).value
  {
    if |cs| > 1 {
      IndexInRange(cs, cum, min, max, total, p);
      IndexInRange(cs, cum, min, max, total, q);
      SumNonNegative(cs, |cs|);
      IndexOrder(p, q, total);
      ValueMonotone(cs, cum, min, max, total, Index(p, total), Index(q, total));
    }
  }

  /** The quantile at 1 is max as soon as there are two centroids. */
  lemma QuantileAtOne(cs: seq<Centroid>, cum: seq<real>, min: real, max: real, total: real)
    requires Digest(cs, cum, min, max) && total == cum[|cs|] && |cs| > 1
    ensures QuantileProcessed(cs, cum, min, max, total, 1.0) == Some(max)
  {
    assert Index(1.0, total) == total;
    PieceFacts(cs, cum, min, max, total);
    CumulativeIncreases(cum, cs);
    MiddleOf(cs, |cs|, 0);
    assert cs[0].weight / 2.0 == cum[0] < total;
    assert Piece(cs, cum, total) == |cs|;
    TailIsMax(cs[|cs| - 1], max, total, total);
  }

  /** No quantile lies above hi. */
  ghost predicate NeverExceeds(cs: seq<Centroid>, cum: seq<real>, min: real, max: real, total: real, hi: real)
    requires Digest(cs, cum, min, max) && total == cum[|cs|]
  {
    forall q :: 0.0 <= q <= 1.0 ==> QuantileProcessed(cs, cum, min, max, total, q).value <= hi
  }

  /** max starts at `smallest`: quantiles stay below the largest value added if and only if that value
      reaches `smallest`, or a single centroid is left. */
  lemma NeverExceedsIff(cs: seq<Centroid>, cum: seq<real>, min: real, max: real, total: real, top: real, smallest: real)
    requires Digest(cs, cum, min, max) && total == cum[|cs|]
    requires cs[|cs| - 1].mean <= top && smallest <= max && (max <= smallest || max <= top)
    ensures NeverExceeds(cs, cum, min, max, total, top) <==> top >= smallest || |cs| == 1
  {
    forall q | 0.0 <= q <= 1.0 && (top >= smallest || |cs| == 1)
      ensures QuantileProcessed(cs, cum, min, max, total, q).value <= top
    {
      QuantileInRange(cs, cum, min, max, total, q);
    }
    if |cs| > 1 && top < smallest {
      QuantileAtOne(cs, cum, min, max, total);
    }
  }

  // ---------------------------------------------------------------- the digest object

  class TDigest {
    const scale: Scale
    const maxProcessed: nat
    const maxUnprocessed: nat
    /** What min and max start from. */
    ghost const largest: real
    ghost const smallest: real
    var processed: seq<Centroid>
    var unprocessed: seq<Centroid>
    var processedWeight: real
    var unprocessedWeight: real
    var min: real
    var max: real
    var cumulative: seq<real>

    ghost predicate Valid()
      reads this
    {
      && Positive(unprocessed) && processedWeight == Sum(processed, Weight)
      && unprocessedWeight == Sum(unprocessed, Weight)
      && (if processed == [] then min == largest && max == smallest else Digest(processed, cumulative, min, max))
      && min <= largest && smallest <= max
    }

    /** Total weight of everything added. */
    ghost function HeldWeight(): real
      reads this
    {
      Sum(processed, Weight) + Sum(unprocessed, Weight)
    }

    /** Weighted sum of everything added. */
    ghost function HeldMoment(): real
      reads this
    {
      Sum(processed, Moment) + Sum(unprocessed, Moment)
    }

    /** Everything held lies in [lo, hi]. */
    ghost predicate Within(lo: real, hi: real)
      reads this
    {
      InHull(processed, lo, hi) && InHull(unprocessed, lo, hi)
    }

    /** Everything held, and the extremes used by quantiles, lies in [lo, hi]. */
    ghost predicate Bounded(lo: real, hi: real)
      reads this
    {
      Within(lo, hi) && lo <= min && max <= hi
    }

    /** min and max start at the largest and the smallest positive double. */
    constructor (scale: Scale, maxProcessed: nat, maxUnprocessed: nat, largest: real, smallest: real)
      ensures Valid() && processed == unprocessed == [] && this.largest == largest && this.smallest == smallest
      ensures this.scale == scale && this.maxProcessed == maxProcessed && this.maxUnprocessed == maxUnprocessed
      ensures forall lo, hi :: lo <= largest && smallest <= hi ==> Bounded(lo, hi)
    {
      this.scale, this.maxProcessed, this.maxUnprocessed := scale, maxProcessed, maxUnprocessed;
      processed, unprocessed, cumulative := [], [], [];
      processedWeight, unprocessedWeight := 0.0, 0.0;
      min, max := largest, smallest;
      this.largest, this.smallest := largest, smallest;
    }

    predicate IsDirty()
      reads this
    {
      |processed| > maxProcessed || |unprocessed| > maxUnprocessed
    }

    /** add(x): one value of weight 1. */
    method Add(x: real)
      requires Valid()
      modifies this
      ensures Valid()
      ensures HeldWeight() == old(HeldWeight()) + 1.0 && HeldMoment() == old(HeldMoment()) + x
      ensures forall lo, hi :: old(Within(lo, hi)) && lo <= x <= hi ==> Within(lo, hi)
      ensures forall lo, hi :: old(Bounded(lo, hi)) && lo <= x <= hi ==> Bounded(lo, hi)
      ensures unprocessed == [] ==> processed != []
      ensures old(|processed| <= maxProcessed && |unprocessed| < maxUnprocessed) ==>
        processed == old(processed) && unprocessed == old(unprocessed) + [Centroid(x, 1.0)]
    {
      AddWeighted(x, 1.0);
      assert Moment(Centroid(x, 1.0)) == x;
    }

    /** add(x, w). */
    method AddWeighted(x: real, w: real)
      requires Valid() && w > 0.0
      modifies this
      ensures Valid()
      ensures HeldWeight() == old(HeldWeight()) + w
      ensures HeldMoment() == old(HeldMoment()) + Moment(Centroid(x, w))
      ensures forall lo, hi :: old(Within(lo, hi)) && lo <= x <= hi ==> Within(lo, hi)
      ensures forall lo, hi :: old(Bounded(lo, hi)) && lo <= x <= hi ==> Bounded(lo, hi)
      ensures unprocessed == [] ==> processed != []
      ensures old(|processed| <= maxProcessed && |unprocessed| < maxUnprocessed) ==>
        processed == old(processed) && unprocessed == old(unprocessed) + [Centroid(x, w)]
    {
      var c := Centroid(x, w);
      SumPush(unprocessed, c, Weight);
      SumPush(unprocessed, c, Moment);
      unprocessed := unprocessed + [c];
      unprocessedWeight := unprocessedWeight + w;
      if IsDirty() {
        var _, _ := Process();
      }
    }

    /** process: total weight and weighted sum are conserved, the centroids are clustered greedily, and
        min and max move to the outermost means where those lie outside. */
    method Process() returns (ghost merged: seq<Centroid>, ghost starts: seq<nat>)
      requires Valid() && (processed != [] || unprocessed != [])
      modifies this
      ensures Valid() && unprocessed == [] && processed != []
      ensures HeldWeight() == old(HeldWeight()) && HeldMoment() == old(HeldMoment())
      ensures forall lo, hi :: old(Within(lo, hi)) ==> Within(lo, hi)
      ensures forall lo, hi :: old(Bounded(lo, hi)) ==> Bounded(lo, hi)
      ensures max == Larger(old(max), processed[|processed| - 1].mean)
      ensures min == Lesser(old(min), processed[0].mean)
      ensures processedWeight > 0.0
      ensures Clusters(old(unprocessed), old(processed), processedWeight, scale, processed, merged, starts)
    {
      var total := processedWeight + unprocessedWeight;
      var cs;
      cs, merged, starts := NewCentroids(total);
      Replace(cs, total);
    }

    /** What process puts in the place of the held centroids. */
    method NewCentroids(total: real) returns (cs: seq<Centroid>, ghost merged: seq<Centroid>, ghost starts: seq<nat>)
      requires Valid() && (processed != [] || unprocessed != []) && total == processedWeight + unprocessedWeight
      ensures cs != [] && Sorted(cs) && Positive(cs) && Sum(cs, Weight) == total == HeldWeight() && Sum(cs, Moment) == HeldMoment()
      ensures forall lo, hi :: Within(lo, hi) ==> InHull(cs, lo, hi)
      ensures total > 0.0 && Clusters(unprocessed, processed, total, scale, cs, merged, starts)
    {
      cs, merged, starts := Condense(unprocessed, processed, total, scale);
    }

    /** The new centroids take the place of all held ones (lines 470-502). */
    method Replace(cs: seq<Centroid>, total: real)
      requires Valid() && cs != [] && Sorted(cs) && Positive(cs) && Sum(cs, Weight) == total
      modifies this
      ensures Valid() && processed == cs && unprocessed == [] && processedWeight == total
      ensures HeldWeight() == total && HeldMoment() == Sum(cs, Moment)
      ensures max == Larger(old(max), cs[|cs| - 1].mean) && min == Lesser(old(min), cs[0].mean)
      ensures forall lo, hi :: InHull(cs, lo, hi) ==> Within(lo, hi)
      ensures forall lo, hi :: InHull(cs, lo, hi) && old(Bounded(lo, hi)) ==> Bounded(lo, hi)
    {
      processedWeight := total;
      unprocessedWeight := 0.0;
      processed := cs;
      unprocessed := [];
      min := Lesser(min, cs[0].mean);
      max := Larger(max, cs[|cs| - 1].mean);
      cumulative := Cumulative(cs);
    }

    /** quantile_(q): a value in [min, max] for every q in [0, 1] once something was added. */
    method Quantile(q: real) returns (r: Option<real>)
      requires Valid()
      modifies this
      ensures Valid() && unprocessed == []
      ensures HeldWeight() == old(HeldWeight()) && HeldMoment() == old(HeldMoment())
      ensures forall lo, hi :: old(Within(lo, hi)) ==> Within(lo, hi)
      ensures forall lo, hi :: old(Bounded(lo, hi)) ==> Bounded(lo, hi)
      ensures r == QuantileProcessed(processed, cumulative, min, max, processedWeight, q)
      ensures r.Some? <==> 0.0 <= q <= 1.0 && old(processed != [] || unprocessed != [])
      ensures r.Some? ==> min <= r.value <= max
      ensures r.Some? ==> forall lo, hi :: old(Bounded(lo, hi)) ==> lo <= r.value <= hi
      ensures old(unprocessed) != [] ==> Clustered(old(unprocessed), old(processed), processedWeight, scale, processed)
    {
      if unprocessed != [] || IsDirty() {
        ghost var merged, starts := Process();
        assert Clusters(old(unprocessed), old(processed), processedWeight, scale, processed, merged, starts);
      }
      QuantileInRange(processed, cumulative, min, max, processedWeight, q);
      r := QuantileProcessed(processed, cumulative, min, max, processedWeight, q);
    }
  }

  function Lesser(x: real, y: real): real {
    if x < y then x else y
  }

  function Larger(x: real, y: real): real {
    if x < y then y else x
  }

  /** The largest of some values. */
  ghost predicate IsTop(xs: seq<real>, top: real) {
    top in xs && forall x :: x in xs ==> x <= top
  }

  /** A fresh digest and any sequence of adds. */
  method AddAll(scale: Scale, maxProcessed: nat, maxUnprocessed: nat, largest: real, smallest: real, xs: seq<real>,
                ghost low: real, ghost top: real)
    returns (d: TDigest)
    requires low <= largest && forall x :: x in xs ==> low <= x <= top
    ensures fresh(d) && d.Valid() && d.smallest == smallest && d.HeldWeight() == |xs| as real
    ensures d.Within(low, top) && d.Bounded(low, Larger(top, smallest))
    ensures xs != [] && d.unprocessed == [] ==> d.processed != []
  {
    d := new TDigest(scale, maxProcessed, maxUnprocessed, largest, smallest);
    for i := 0 to |xs|
      invariant fresh(d) && d.Valid() && d.smallest == smallest && d.HeldWeight() == i as real
      invariant d.Within(low, top) && d.Bounded(low, Larger(top, smallest))
      invariant i > 0 && d.unprocessed == [] ==> d.processed != []
    {
      assert xs[i] in xs;
      d.Add(xs[i]);
    }
  }

  /** Any sequence of adds, then a query.  No quantile exceeds the largest value added if and only if that
      value reaches what max starts from or the digest holds a single centroid.  Truncated to integers, as
      `quantile` does it, none ever exceeds a largest value that is a natural number. */
  method AddAndQuery(scale: Scale, maxProcessed: nat, maxUnprocessed: nat, largest: real, smallest: real, xs: seq<real>, q: real,
                     ghost low: real, ghost top: real)
    returns (d: TDigest, r: Option<real>)
    requires IsTop(xs, top) && forall x :: x in xs ==> low <= x <= largest
    ensures fresh(d) && d.Valid() && d.unprocessed == [] && d.processed != [] && d.HeldWeight() == |xs| as real
    ensures r == QuantileProcessed(d.processed, d.cumulative, d.min, d.max, d.processedWeight, q)
    ensures r.Some? <==> 0.0 <= q <= 1.0
    ensures r.Some? ==> low <= r.value <= Larger(top, smallest)
    ensures NeverExceeds(d.processed, d.cumulative, d.min, d.max, d.processedWeight, top)
      <==> top >= smallest || |d.processed| == 1
    ensures r.Some? && 0.0 < smallest < 1.0 && 0.0 <= top == top.Floor as real ==> r.value.Floor <= top.Floor
  {
    assert low <= largest;
    d := AddAll(scale, maxProcessed, maxUnprocessed, largest, smallest, xs, low, top);
    r := d.Quantile(q);
    NeverExceedsIff(d.processed, d.cumulative, d.min, d.max, d.processedWeight, top, smallest);
  }

  /** Two centroids of weight one are joined only when the limit of the first cluster admits both. */
  lemma TwoStay(x: real, y: real, scale: Scale, cs: seq<Centroid>)
    requires scale.quantile(1.0) < 1.0
    requires Clustered([Centroid(x, 1.0), Centroid(y, 1.0)], [], 2.0, scale, cs)
    ensures |cs| > 1
  {
    var two := [Centroid(x, 1.0), Centroid(y, 1.0)];
    var merged, starts :| Clusters(two, [], 2.0, scale, cs, merged, starts);
    assert multiset(merged) == multiset(two);
    SumOfPermutation(merged, two, Weight);
    assert SumTo(two, Weight, 1) == 1.0;
    assert |merged| == |multiset(merged)| == |multiset(two)| == 2;
  }

  method TwoZeros(scale: Scale, maxProcessed: nat, maxUnprocessed: nat, largest: real, smallest: real) returns (d: TDigest)
    requires maxUnprocessed >= 2 && 0.0 < smallest
    ensures fresh(d) && d.Valid() && d.smallest == smallest && d.scale == scale && d.HeldWeight() == 2.0
    ensures d.processed == [] && d.unprocessed == [Centroid(0.0, 1.0), Centroid(0.0, 1.0)]
    ensures d.Bounded(Lesser(largest, 0.0), smallest)
  {
    d := new TDigest(scale, maxProcessed, maxUnprocessed, largest, smallest);
    d.Add(0.0);
    d.Add(0.0);
  }

  /** An input below what max starts from: after adding 0 twice the quantile at 1 is above 0. */
  method ZeroIsExceeded(scale: Scale, maxProcessed: nat, maxUnprocessed: nat, largest: real, smallest: real)
    returns (r: Option<real>)
    requires maxUnprocessed >= 2 && scale.quantile(1.0) < 1.0 && 0.0 < smallest
    ensures r == Some(smallest)
  {
    var d := TwoZeros(scale, maxProcessed, maxUnprocessed, largest, smallest);
    r := d.Quantile(1.0);
    assert d.Bounded(Lesser(largest, 0.0), smallest);
    TwoStay(0.0, 0.0, scale, d.processed);
    QuantileAtOne(d.processed, d.cumulative, d.min, d.max, d.processedWeight);
  }
}
