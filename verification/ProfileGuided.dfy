/**
 Profile-guided server weights (sandook/scheduler/control_plane/profile_guided.h and
 profile_guided_rw_isolation.h): the iterative balancing method, the peak-based
 fallback and the write-mode filter.  Doubles are modelled by `real`.
 */
module ProfileGuided {
  import opened Wrappers
  import opened DiskModel
  import opened Numbers
  import opened RealArithmetic
  import opened Sequences

  const STABLE_BOUND: real := 0.05
  const MAX_BOUND: real := 1.0
  const MAX_ITERATIONS: nat := 5000
  const BIAS: real := 0.005
  const PEAK_THRESHOLD: real := 0.95
  /** kOneSecond / kDiskServerStatsUpdateIntervalUs. */
  const RESIDUAL_SCALE: real := 10000.0

  datatype Stats = Stats(id: nat, mode: Mode, inflightReads: nat, inflightWrites: nat)
  datatype Load = Load(readOps: nat, writeOps: nat)

  type Weights = seq<real>

  /** Server ids are distinct and index the weight array; every server has a valid model. */
  ghost predicate ValidStats(stats: seq<Stats>, models: seq<Disk>) {
    && |models| == MAX_SERVERS
    && (forall i :: 0 <= i < |stats| ==> stats[i].id < MAX_SERVERS && ValidDisk(models[stats[i].id]))
    && Distinct(stats)
  }

  ghost predicate Distinct(stats: seq<Stats>) {
    forall i, j :: 0 <= i < j < |stats| ==> stats[i].id != stats[j].id
  }

  ghost predicate IsServer(stats: seq<Stats>, id: nat) {
    exists i :: 0 <= i < |stats| && stats[i].id == id
  }

  // ---------------------------------------------------------------- weight sums

  /** Sum of the weights of the first n servers. */
  function WeightSum(w: Weights, stats: seq<Stats>, n: nat): real
    requires n <= |stats| && forall i :: 0 <= i < |stats| ==> stats[i].id < |w|
  {
    if n == 0 then 0.0 else WeightSum(w, stats, n - 1) + w[stats[n - 1].id]
  }

  /** Weights in [0, 1] that sum to exactly 1 over the given servers and are 0 elsewhere. */
  ghost predicate Distribution(w: Weights, stats: seq<Stats>) {
    && |w| == MAX_SERVERS
    && (forall i :: 0 <= i < |stats| ==> stats[i].id < MAX_SERVERS && 0.0 <= w[stats[i].id] <= 1.0)
    && WeightSum(w, stats, |stats|) == 1.0
    && (forall id :: 0 <= id < MAX_SERVERS && !IsServer(stats, id) ==> w[id] == 0.0)
  }

  /** Updating a weight outside the first n servers does not change their sum. */
  lemma {:induction false} WeightSumFrame(w: Weights, w': Weights, stats: seq<Stats>, n: nat)
    requires n <= |stats| && |w| == |w'| && forall i :: 0 <= i < |stats| ==> stats[i].id < |w|
    requires forall i :: 0 <= i < n ==> w'[stats[i].id] == w[stats[i].id]
    ensures WeightSum(w', stats, n) == WeightSum(w, stats, n)
  {
    if n > 0 {
      WeightSumFrame(w, w', stats, n - 1);
    }
  }

  /** Scaling every weight scales the sum. */
  lemma {:induction false} WeightSumScale(w: Weights, w': Weights, stats: seq<Stats>, n: nat, f: real)
    requires n <= |stats| && |w| == |w'| && forall i :: 0 <= i < |stats| ==> stats[i].id < |w|
    requires forall i :: 0 <= i < n ==> w'[stats[i].id] == f * w[stats[i].id]
    ensures WeightSum(w', stats, n) == f * WeightSum(w, stats, n)
  {
    if n > 0 {
      WeightSumScale(w, w', stats, n - 1, f);
      Distribute(f, WeightSum(w, stats, n - 1), w[stats[n - 1].id]);
    }
  }

  lemma Distribute(f: real, x: real, y: real)
    ensures f * (x + y) == f * x + f * y
  {
  }

  /** All but one weight scaled by f, the remaining one set to v. */
  lemma {:induction false} WeightSumRescale(w: Weights, w': Weights, stats: seq<Stats>, n: nat, b: nat, f: real, v: real)
    requires b < n <= |stats| && |w| == |w'| && (forall i :: 0 <= i < |stats| ==> stats[i].id < |w|) && Distinct(stats)
    requires forall i :: 0 <= i < n && i != b ==> w'[stats[i].id] == f * w[stats[i].id]
    requires w'[stats[b].id] == v
    ensures WeightSum(w', stats, n) == v + Times(f, WeightSum(w, stats, n) - w[stats[b].id])
  {
    var rest := WeightSum(w, stats, n - 1);
    if b == n - 1 {
      WeightSumScale(w, w', stats, n - 1, f);
      assert WeightSum(w, stats, n) - w[stats[b].id] == rest;
    } else {
      WeightSumRescale(w, w', stats, n - 1, b, f, v);
      Distribute(f, rest - w[stats[b].id], w[stats[n - 1].id]);
      assert WeightSum(w, stats, n) - w[stats[b].id] == (rest - w[stats[b].id]) + w[stats[n - 1].id];
    }
  }

  lemma {:induction false} WeightSumAtLeast(w: Weights, stats: seq<Stats>, n: nat, b: nat)
    requires b < n <= |stats| && forall i :: 0 <= i < |stats| ==> stats[i].id < |w| && w[stats[i].id] >= 0.0
    ensures WeightSum(w, stats, n) >= w[stats[b].id]
  {
    if b < n - 1 {
      WeightSumAtLeast(w, stats, n - 1, b);
    } else {
      WeightSumNonNeg(w, stats, n - 1);
    }
  }

  lemma {:induction false} WeightSumNonNeg(w: Weights, stats: seq<Stats>, n: nat)
    requires n <= |stats| && forall i :: 0 <= i < |stats| ==> stats[i].id < |w| && w[stats[i].id] >= 0.0
    ensures WeightSum(w, stats, n) >= 0.0
  {
    if n > 0 {
      WeightSumNonNeg(w, stats, n - 1);
    }
  }

  lemma {:induction false} WeightSumConstant(w: Weights, stats: seq<Stats>, n: nat, v: real)
    requires n <= |stats| && forall i :: 0 <= i < |stats| ==> stats[i].id < |w| && w[stats[i].id] == v
    ensures WeightSum(w, stats, n) == n as real * v
  {
    if n > 0 {
      WeightSumConstant(w, stats, n - 1, v);
      assert n as real * v == (n - 1) as real * v + v;
    }
  }

  // ---------------------------------------------------------------- equal weights

  /** 1/n on each of the n servers and 0 elsewhere. */
  ghost function EqualWeights(stats: seq<Stats>): Weights
    requires |stats| > 0
  {
    seq(MAX_SERVERS, (id: nat) => if IsServer(stats, id) then 1.0 / |stats| as real else 0.0)
  }

  method ResetWeights(weights: Weights, stats: seq<Stats>) returns (w: Weights)
    requires |weights| == MAX_SERVERS && |stats| > 0 && (forall i :: 0 <= i < |stats| ==> stats[i].id < MAX_SERVERS)
    requires forall id :: 0 <= id < MAX_SERVERS && !IsServer(stats, id) ==> weights[id] == 0.0
    ensures Distribution(w, stats) && w == EqualWeights(stats)
  {
    var default' := 1.0 / |stats| as real;
    w := weights;
    for i := 0 to |stats|
      invariant |w| == MAX_SERVERS
      invariant forall j :: 0 <= j < i ==> w[stats[j].id] == default'
      invariant forall id :: 0 <= id < MAX_SERVERS && !IsServer(stats, id) ==> w[id] == 0.0
    {
      w := w[stats[i].id := default'];
    }
    WeightSumConstant(w, stats, |stats|, default');
    EqualShare(|stats|);
  }

  lemma EqualShare(n: nat)
    requires n > 0
    ensures n as real * (1.0 / n as real) == 1.0 && 0.0 <= 1.0 / n as real <= 1.0
  {
    DivOrder(0.0, 1.0, n as real);
    DivOrder(1.0, n as real, n as real);
    assert n as real / n as real == 1.0;
  }

  // ---------------------------------------------------------------- one iteration

  /** Lines 207-233 with the best server at index b. */
  method ShiftWeight(w: Weights, stats: seq<Stats>, b: nat) returns (r: Status<Weights>)
    requires Distribution(w, stats) && Distinct(stats) && b < |stats|
    ensures r.Err? <==> w[stats[b].id] == 1.0 || w[stats[b].id] + BIAS == 1.0
    ensures r.Ok? ==> Distribution(r.value, stats) && r.value[stats[b].id] > w[stats[b].id]
    ensures r.Ok? ==> forall i :: 0 <= i < |stats| && i != b ==> r.value[stats[i].id] <= w[stats[i].id]
  {
    var best := w[stats[b].id];
    var newBest := best + BIAS;
    var rem := 1.0 - best;
    if rem == 0.0 {
      return Err(EAGAIN);
    }
    var scale := (1.0 - newBest) / rem;
    ScaleFacts(best);
    if scale == 0.0 {
      return Err(EAGAIN);
    }
    var w' := ApplyShift(w, stats, b, newBest, scale);
    ShiftKeepsDistribution(w, w', stats, b, newBest, scale);
    return Ok(w');
  }

  /** Lines 222-233. */
  method ApplyShift(w: Weights, stats: seq<Stats>, b: nat, newBest: real, scale: real) returns (w': Weights)
    requires |w| == MAX_SERVERS && Distinct(stats) && b < |stats|
    requires forall i :: 0 <= i < |stats| ==> stats[i].id < MAX_SERVERS
    ensures |w'| == MAX_SERVERS
    ensures forall i :: 0 <= i < |stats| ==> w'[stats[i].id] == NewWeight(w[stats[i].id], i == b, newBest, scale)
    ensures forall id :: 0 <= id < MAX_SERVERS && !IsServer(stats, id) ==> w'[id] == w[id]
  {
    w' := w;
    for k := 0 to |stats|
      invariant |w'| == MAX_SERVERS
      invariant forall i :: 0 <= i < k ==> w'[stats[i].id] == NewWeight(w[stats[i].id], i == b, newBest, scale)
      invariant forall i :: k <= i < |stats| ==> w'[stats[i].id] == w[stats[i].id]
      invariant forall id :: 0 <= id < MAX_SERVERS && !IsServer(stats, id) ==> w'[id] == w[id]
    {
      var id := stats[k].id;
      w' := w'[id := NewWeight(w'[id], id == stats[b].id, newBest, scale)];
    }
  }

  function NewWeight(v: real, isBest: bool, newBest: real, scale: real): real {
    if isBest then (if newBest < 1.0 then newBest else 1.0)
    else (if scale * v > 0.0 then scale * v else 0.0)
  }

  lemma ScaleFacts(best: real)
    requires 0.0 <= best < 1.0
    ensures
      var scale := (1.0 - (best + BIAS)) / (1.0 - best);
      && scale * (1.0 - best) == 1.0 - (best + BIAS)
      && scale <= 1.0 && (scale == 0.0 <==> best + BIAS == 1.0) && (scale < 0.0 <==> best + BIAS > 1.0)
  {
    var rem := 1.0 - best;
    var num := rem - BIAS;
    var scale := num / rem;
    assert scale * rem == num;
    DivOrder(num, rem, rem);
    assert rem / rem == 1.0;
    if num <= 0.0 { DivOrder(num, 0.0, rem); }
    if num >= 0.0 { DivOrder(0.0, num, rem); }
    assert 0.0 / rem == 0.0;
  }

  /** The shifted weights sum to 1 even when the best weight is clamped and the scale is negative. */
  lemma ShiftKeepsDistribution(w: Weights, w': Weights, stats: seq<Stats>, b: nat, newBest: real, scale: real)
    requires Distribution(w, stats) && Distinct(stats) && b < |stats| && |w'| == MAX_SERVERS
    requires w[stats[b].id] < 1.0 && newBest == w[stats[b].id] + BIAS && newBest != 1.0
    requires scale == (1.0 - newBest) / (1.0 - w[stats[b].id])
    requires forall i :: 0 <= i < |stats| ==> w'[stats[i].id] == NewWeight(w[stats[i].id], i == b, newBest, scale)
    requires forall id :: 0 <= id < MAX_SERVERS && !IsServer(stats, id) ==> w'[id] == 0.0
    ensures Distribution(w', stats) && w'[stats[b].id] > w[stats[b].id]
    ensures forall i :: 0 <= i < |stats| && i != b ==> w'[stats[i].id] <= w[stats[i].id]
  {
    var best := w[stats[b].id];
    forall i | 0 <= i < |stats| && i != b
      ensures Scaled(w[stats[i].id], w'[stats[i].id], Factor(newBest, scale))
    {
      OtherWeight(w[stats[i].id], best, newBest, scale);
    }
    TotalStaysOne(best, newBest, scale);
    RescaleKeepsDistribution(w, w', stats, b, Factor(newBest, scale));
  }

  ghost predicate Scaled(v: real, v': real, f: real) {
    v' == f * v && 0.0 <= v' <= v
  }

  ghost predicate SumsToOne(v: real, f: real, best: real) {
    v + Times(f, 1.0 - best) == 1.0
  }

  lemma RescaleKeepsDistribution(w: Weights, w': Weights, stats: seq<Stats>, b: nat, f: real)
    requires Distribution(w, stats) && Distinct(stats) && b < |stats| && |w'| == MAX_SERVERS
    requires forall i :: 0 <= i < |stats| && i != b ==> Scaled(w[stats[i].id], w'[stats[i].id], f)
    requires 0.0 <= w'[stats[b].id] <= 1.0 && SumsToOne(w'[stats[b].id], f, w[stats[b].id])
    requires forall id :: 0 <= id < MAX_SERVERS && !IsServer(stats, id) ==> w'[id] == 0.0
    ensures Distribution(w', stats)
  {
    WeightSumRescale(w, w', stats, |stats|, b, f, w'[stats[b].id]);
  }

  /** What the other weights are effectively multiplied by. */
  function Factor(newBest: real, scale: real): real {
    if newBest < 1.0 then scale else 0.0
  }

  lemma OtherWeight(v: real, best: real, newBest: real, scale: real)
    requires 0.0 <= v && 0.0 <= best < 1.0 && newBest == best + BIAS && newBest != 1.0
    requires scale == (1.0 - newBest) / (1.0 - best)
    ensures Scaled(v, NewWeight(v, false, newBest, scale), Factor(newBest, scale))
  {
    ScaleFacts(best);
    ScaledWeight(v, scale);
  }

  lemma TotalStaysOne(best: real, newBest: real, scale: real)
    requires 0.0 <= best < 1.0 && newBest == best + BIAS && newBest != 1.0
    requires scale == (1.0 - newBest) / (1.0 - best)
    ensures SumsToOne(NewWeight(best, true, newBest, scale), Factor(newBest, scale), best)
  {
    ScaleFacts(best);
  }

  lemma ScaledWeight(v: real, scale: real)
    requires v >= 0.0 && scale <= 1.0
    ensures scale >= 0.0 ==> 0.0 <= scale * v <= v
    ensures scale < 0.0 ==> scale * v <= 0.0
  {
    MulOrder(v, scale, 1.0);
    if scale >= 0.0 {
      MulOrder(v, 0.0, scale);
    } else {
      MulOrder(v, scale, 0.0);
    }
    assert scale * v == v * scale;
  }

  // ---------------------------------------------------------------- signals

  /** Extra load of the other kind on servers that take both. */
  function ResidualLoad(srv: Stats, op: OpType): (r: real)
    ensures r >= 0.0
  {
    if srv.mode == ReadMode then 0.0
    else (if op == ReadOp then srv.inflightWrites else srv.inflightReads) as real * RESIDUAL_SCALE
  }

  function TotalOps(load: Load): nat {
    load.readOps + load.writeOps
  }

  function WriteRatio(load: Load): real
    requires TotalOps(load) > 0
  {
    load.writeOps as real / TotalOps(load) as real
  }

  /** The load a server gets at weight v, converted to uint64_t. */
  function ServerLoad(srv: Stats, op: OpType, load: Load, v: real): nat
    requires v >= 0.0
  {
    MulOrder(TotalOps(load) as real, 0.0, v);
    (TotalOps(load) as real * v + ResidualLoad(srv, op)).Floor
  }

  /** Modelled latency of a server at weight v. */
  ghost function Signal(model: Disk, srv: Stats, op: OpType, load: Load, v: real): nat
    requires ValidDisk(model) && TotalOps(load) > 0 && v >= 0.0
  {
    DiskLatency(model, ServerLoad(srv, op, load, v), op, srv.mode, WriteRatio(load))
  }

  method GetSignal(model: Disk, srv: Stats, op: OpType, load: Load, v: real) returns (sig: nat)
    requires ValidDisk(model) && TotalOps(load) > 0 && v >= 0.0
    ensures sig == Signal(model, srv, op, load, v) <= PENALTY_US
  {
    sig := GetDiskLatency(model, ServerLoad(srv, op, load, v), op, srv.mode, WriteRatio(load));
  }

  /** What the measuring loop needs of its inputs. */
  ghost predicate Measurable(models: seq<Disk>, stats: seq<Stats>, w: Weights) {
    && |w| == |models|
    && forall i :: 0 <= i < |stats| ==>
      stats[i].id < |models| && ValidDisk(models[stats[i].id]) && w[stats[i].id] >= 0.0
  }

  /** The latencies of the first n servers at the given weights. */
  ghost function Signals(models: seq<Disk>, stats: seq<Stats>, op: OpType, load: Load, w: Weights, n: nat): (s: seq<nat>)
    requires Measurable(models, stats, w) && TotalOps(load) > 0 && n <= |stats|
    ensures |s| == n
  {
    if n == 0 then []
    else
      var srv := stats[n - 1];
      Signals(models, stats, op, load, w, n - 1) + [Signal(models[srv.id], srv, op, load, w[srv.id])]
  }

  method MeasureOne(models: seq<Disk>, stats: seq<Stats>, op: OpType, load: Load, w: Weights, k: nat) returns (sig: nat)
    requires Measurable(models, stats, w) && TotalOps(load) > 0 && k < |stats|
    ensures sig <= PENALTY_US
    ensures Signals(models, stats, op, load, w, k + 1) == Signals(models, stats, op, load, w, k) + [sig]
  {
    var srv := stats[k];
    sig := GetSignal(models[srv.id], srv, op, load, w[srv.id]);
  }

  function Sum(s: seq<nat>): nat {
    if s == [] then 0 else Sum(s[..|s| - 1]) + s[|s| - 1]
  }

  /** The first position of the smallest signal. */
  function Smallest(s: seq<nat>): (b: nat)
    requires s != []
    ensures b < |s|
  {
    var l := |s| - 1;
    if l == 0 then 0
    else
      var b := Smallest(s[..l]);
      if s[l] < s[b] then l else b
  }

  lemma {:induction false} SmallestIsFirstMinimum(s: seq<nat>)
    requires s != []
    ensures forall i :: 0 <= i < |s| ==> s[Smallest(s)] <= s[i]
    ensures forall i :: 0 <= i < Smallest(s) ==> s[Smallest(s)] < s[i]
  {
    if |s| > 1 {
      SmallestIsFirstMinimum(s[..|s| - 1]);
    }
  }

  lemma SmallestPush(s: seq<nat>, x: nat)
    requires s != []
    ensures Smallest(s + [x]) == if x < s[Smallest(s)] then |s| else Smallest(s)
  {
    assert (s + [x])[..|s|] == s;
  }

  /** Lines 172-189: the signals, their sum and the first server with the smallest one. */
  method MeasureSignals(models: seq<Disk>, stats: seq<Stats>, op: OpType, load: Load, w: Weights)
    returns (signals: seq<nat>, best: nat, sum: nat)
    requires TotalOps(load) > 0 && |stats| > 0 && Measurable(models, stats, w)
    ensures signals == Signals(models, stats, op, load, w, |stats|)
    ensures best == Smallest(signals) && sum == Sum(signals)
  {
    signals, best, sum := [], 0, 0;
    var bestSignal := 0xFFFF_FFFF_FFFF_FFFF;
    for k := 0 to |stats|
      invariant signals == Signals(models, stats, op, load, w, k) && sum == Sum(signals)
      invariant Tracks(signals, best, bestSignal)
    {
      var sig := MeasureOne(models, stats, op, load, w, k);
      TrackOne(signals, best, bestSignal, sig);
      if sig < bestSignal {
        bestSignal, best := sig, k;
      }
      SumPush(signals, sig);
      signals := signals + [sig];
      sum := sum + sig;
    }
  }

  /** bestSignal is the first smallest signal so far, or above all possible ones. */
  ghost predicate Tracks(signals: seq<nat>, best: nat, bestSignal: nat) {
    if signals == [] then bestSignal > PENALTY_US else best == Smallest(signals) && bestSignal == signals[best]
  }

  lemma TrackOne(signals: seq<nat>, best: nat, bestSignal: nat, sig: nat)
    requires Tracks(signals, best, bestSignal) && sig <= PENALTY_US
    ensures Tracks(signals + [sig], if sig < bestSignal then |signals| else best, if sig < bestSignal then sig else bestSignal)
  {
    if signals != [] {
      SmallestPush(signals, sig);
    }
  }

  lemma SumPush(s: seq<nat>, x: nat)
    ensures Sum(s + [x]) == Sum(s) + x
  {
    assert (s + [x])[..|s|] == s;
  }

  /** Distance of the best signal from the mean, relative to the mean. */
  function RelativeGap(best: real, mean: real): real
    requires mean != 0.0
  {
    (if best - mean < 0.0 then mean - best else best - mean) / mean
  }

  /** A zero mean makes the quotient NaN, which is not within any bound. */
  predicate IsStable(best: nat, sum: nat, n: nat, bound: real)
    requires n > 0
  {
    sum != 0 && RelativeGap(best as real, sum as real / n as real) <= bound
  }

  ghost function Mean(signals: seq<nat>): real
    requires |signals| > 0
  {
    Sum(signals) as real / |signals| as real
  }

  ghost function Low(mean: real, bound: real): real {
    (1.0 - bound) * mean
  }

  ghost function High(mean: real, n: real, bound: real): real {
    (1.0 + (n - 1.0) * bound) * mean
  }

  ghost predicate Within(signal: real, mean: real, n: real, bound: real) {
    Low(mean, bound) <= signal <= High(mean, n, bound)
  }

  /** Every latency is within the bound below the mean, and hence within n - 1 bounds above it. */
  ghost predicate Balanced(signals: seq<nat>, bound: real)
    requires |signals| > 0
  {
    forall i :: 0 <= i < |signals| ==> Within(signals[i] as real, Mean(signals), |signals| as real, bound)
  }

  lemma {:induction false} SumAtLeast(s: seq<nat>, m: real)
    requires forall i :: 0 <= i < |s| ==> m <= s[i] as real
    ensures Sum(s) as real >= |s| as real * m
  {
    if s != [] {
      SumAtLeast(s[..|s| - 1], m);
      assert |s| as real * m == (|s| - 1) as real * m + m;
    }
  }

  /** The others being at least m leaves at most the rest for one element. */
  lemma {:induction false} SumBoundsOne(s: seq<nat>, m: real, i: nat)
    requires i < |s| && forall j :: 0 <= j < |s| ==> m <= s[j] as real
    ensures s[i] as real <= Sum(s) as real - (|s| - 1) as real * m
  {
    var l := |s| - 1;
    if i == l {
      SumAtLeast(s[..l], m);
    } else {
      SumBoundsOne(s[..l], m, i);
      assert l as real * m == (l - 1) as real * m + m;
    }
  }

  /** A stable minimum bounds all latencies on both sides. */
  lemma StableIsBalanced(signals: seq<nat>, best: nat, bound: real)
    requires |signals| > 0 && best < |signals|
    requires forall i :: 0 <= i < |signals| ==> signals[best] <= signals[i]
    requires IsStable(signals[best], Sum(signals), |signals|, bound)
    ensures Balanced(signals, bound)
  {
    MinTimesSize(signals, signals[best]);
    StableBest(signals[best], Sum(signals), |signals|, bound);
    LowIsBalanced(signals, bound);
  }

  ghost predicate AtMostMean(best: nat, sum: nat, n: nat) {
    best as real * n as real <= sum as real
  }

  lemma {:induction false} MinTimesSize(s: seq<nat>, m: nat)
    requires forall i :: 0 <= i < |s| ==> m <= s[i]
    ensures AtMostMean(m, Sum(s), |s|)
  {
    if s != [] {
      MinTimesSize(s[..|s| - 1], m);
      assert m as real * |s| as real == m as real * (|s| - 1) as real + m as real;
    }
  }

  lemma LowIsBalanced(signals: seq<nat>, bound: real)
    requires |signals| > 0
    requires forall i :: 0 <= i < |signals| ==> Low(Mean(signals), bound) <= signals[i] as real
    ensures Balanced(signals, bound)
  {
    forall i | 0 <= i < |signals| ensures Within(signals[i] as real, Mean(signals), |signals| as real, bound) {
      LowIsWithin(signals, bound, i);
    }
  }

  lemma LowIsWithin(signals: seq<nat>, bound: real, i: nat)
    requires i < |signals| && forall k :: 0 <= k < |signals| ==> Low(Mean(signals), bound) <= signals[k] as real
    ensures Within(signals[i] as real, Mean(signals), |signals| as real, bound)
  {
    SumBoundsOne(signals, Low(Mean(signals), bound), i);
    MeanFacts(Sum(signals), |signals|);
    UpperBound(|signals| as real, Mean(signals), Sum(signals) as real, bound);
  }

  lemma MeanFacts(sum: nat, n: nat)
    requires n > 0
    ensures var mean := sum as real / n as real; n as real * mean == sum as real && (sum != 0 ==> mean > 0.0)
  {
    var w, mean := n as real, sum as real / n as real;
    assert w * mean == sum as real;
    if sum != 0 {
      DivOrder(0.0, sum as real, w);
    }
  }

  lemma StableBest(best: nat, sum: nat, n: nat, bound: real)
    requires n > 0 && AtMostMean(best, sum, n) && IsStable(best, sum, n, bound)
    ensures Low(sum as real / n as real, bound) <= best as real
  {
    var mean := sum as real / n as real;
    MeanFacts(sum, n);
    MulReflects(n as real, best as real, mean);
    GapIsLow(best as real, mean, bound);
  }

  lemma GapIsLow(best: real, mean: real, bound: real)
    requires mean > 0.0 && best <= mean && RelativeGap(best, mean) <= bound
    ensures Low(mean, bound) <= best
  {
    var q := (mean - best) / mean;
    assert mean * q == mean - best;
    MulOrder(mean, q, bound);
    assert Low(mean, bound) == mean - mean * bound;
  }

  lemma UpperBound(n: real, mean: real, sum: real, bound: real)
    requires n * mean == sum
    ensures sum - (n - 1.0) * Low(mean, bound) == High(mean, n, bound)
  {
    var k := n - 1.0;
    assert Low(mean, bound) == mean - bound * mean;
    assert k * Low(mean, bound) == k * mean - k * (bound * mean);
    assert k * mean == sum - mean;
    assert k * (bound * mean) == (k * bound) * mean;
    assert High(mean, n, bound) == mean + (k * bound) * mean;
  }

  // ---------------------------------------------------------------- the iterative method

  lemma DistributionIsMeasurable(models: seq<Disk>, stats: seq<Stats>, w: Weights)
    requires ValidStats(stats, models) && Distribution(w, stats)
    ensures Measurable(models, stats, w)
  {
  }

  /** The latencies at weights w lie within the bound of a positive mean. */
  ghost predicate BalancedBy(models: seq<Disk>, stats: seq<Stats>, op: OpType, load: Load, w: Weights, bound: real)
    requires |stats| > 0 && TotalOps(load) > 0 && Measurable(models, stats, w)
  {
    var s := Signals(models, stats, op, load, w, |stats|);
    Balanced(s, bound) && Mean(s) > 0.0
  }

  /** The stability test on the latencies at weights w. */
  ghost predicate StableAt(models: seq<Disk>, stats: seq<Stats>, op: OpType, load: Load, w: Weights, bound: real)
    requires |stats| > 0 && TotalOps(load) > 0 && Measurable(models, stats, w)
  {
    var s := Signals(models, stats, op, load, w, |stats|);
    IsStable(s[Smallest(s)], Sum(s), |s|, bound)
  }

  /** Equal weights are already stable. */
  ghost predicate StartsStable(models: seq<Disk>, stats: seq<Stats>, op: OpType, load: Load, bound: real)
    requires |stats| > 0 && TotalOps(load) > 0
  {
    var w := EqualWeights(stats);
    Measurable(models, stats, w) && StableAt(models, stats, op, load, w, bound)
  }

  method ComputeWeightsIterative(models: seq<Disk>, stats: seq<Stats>, op: OpType, load: Load, bound: real)
    returns (r: Status<Weights>)
    requires ValidStats(stats, models)
    ensures |stats| < 2 || TotalOps(load) == 0 ==> r == Err(EAGAIN)
    ensures r.Err? ==> r.code == EAGAIN
    ensures r.Ok? ==> |stats| >= 2 && TotalOps(load) > 0 && Distribution(r.value, stats)
    ensures r.Ok? ==> Measurable(models, stats, r.value) && BalancedBy(models, stats, op, load, r.value, bound)
    ensures |stats| >= 2 && TotalOps(load) > 0 && StartsStable(models, stats, op, load, bound)
      ==> r == Ok(EqualWeights(stats))
  {
    if |stats| < 2 || TotalOps(load) == 0 {
      return Err(EAGAIN);
    }
    var w := ResetWeights(seq(MAX_SERVERS, _ => 0.0), stats);
    for i := 0 to MAX_ITERATIONS
      invariant Distribution(w, stats)
      invariant if i == 0 then w == EqualWeights(stats) else !StartsStable(models, stats, op, load, bound)
    {
      DistributionIsMeasurable(models, stats, w);
      var signals, best, sum := MeasureSignals(models, stats, op, load, w);
      if IsStable(signals[best], sum, |stats|, bound) {
        StableChoice(signals, best, bound);
        return Ok(w);
      }
      var next := ShiftWeight(w, stats, best);
      if next.Err? {
        return Err(EAGAIN);
      }
      w := next.value;
    }
    return Err(EAGAIN);
  }

  lemma StableChoice(signals: seq<nat>, best: nat, bound: real)
    requires signals != [] && best == Smallest(signals)
    requires IsStable(signals[best], Sum(signals), |signals|, bound)
    ensures Balanced(signals, bound) && Mean(signals) > 0.0
  {
    SmallestIsFirstMinimum(signals);
    StableIsBalanced(signals, best, bound);
    MeanFacts(Sum(signals), |signals|);
  }

  // ---------------------------------------------------------------- the peak-based method

  function Peak(models: seq<Disk>, srv: Stats, ratio: real): nat
    requires srv.id < |models| && ValidDisk(models[srv.id])
  {
    DiskPeak(models[srv.id], srv.mode, ratio)
  }

  ghost predicate Ascending(s: seq<nat>) {
    forall i, j :: 0 <= i < j < |s| ==> s[i] <= s[j]
  }

  method InsertLoad(s: seq<nat>, x: nat) returns (r: seq<nat>)
    requires Ascending(s)
    ensures Ascending(r) && multiset(r) == multiset(s) + multiset{x}
  {
    var p := 0;
    while p < |s| && s[p] < x
      invariant p <= |s| && forall i :: 0 <= i < p ==> s[i] < x
    {
      p := p + 1;
    }
    r := s[..p] + [x] + s[p..];
    InsertAddsOne(s, p, x);
    InsertAscending(s, p, x);
  }

  lemma InsertAscending(s: seq<nat>, p: nat, x: nat)
    requires Ascending(s) && p <= |s| && (forall i :: 0 <= i < p ==> s[i] < x) && (p < |s| ==> x <= s[p])
    ensures Ascending(s[..p] + [x] + s[p..])
  {
  }

  /** std::sort of the loads, as an insertion sort. */
  method SortLoads(loads: seq<nat>) returns (s: seq<nat>)
    ensures Ascending(s) && multiset(s) == multiset(loads)
  {
    s := [];
    for k := 0 to |loads|
      invariant Ascending(s) && multiset(s) == multiset(loads[..k])
    {
      assert loads[..k + 1] == loads[..k] + [loads[k]];
      s := InsertLoad(s, loads[k]);
    }
    assert loads[..|loads|] == loads;
  }

  /** Share of the capacity, nudged by the bias and clamped to [0, 1]. */
  function BiasedShare(peak: nat, total: nat, median: nat): real
    requires total > 0
  {
    var share := peak as real / total as real;
    var v := if peak >= median then share + BIAS else share - BIAS;
    if v < 0.0 then 0.0 else if v > 1.0 then 1.0 else v
  }

  lemma BiasedShareFacts(peak: nat, total: nat, median: nat)
    requires total > 0
    ensures 0.0 <= BiasedShare(peak, total, median) <= 1.0
    ensures peak >= median ==> BiasedShare(peak, total, median) > 0.0
  {
    DivOrder(0.0, peak as real, total as real);
  }

  lemma BiasedShareMonotone(p: nat, q: nat, total: nat, median: nat)
    requires total > 0 && p <= q
    ensures BiasedShare(p, total, median) <= BiasedShare(q, total, median)
  {
    DivOrder(p as real, q as real, total as real);
  }

  /** Servers with a larger modelled peak get at least as much weight. */
  ghost predicate FollowsPeaks(models: seq<Disk>, stats: seq<Stats>, ratio: real, w: Weights)
    requires ValidStats(stats, models) && |w| == MAX_SERVERS
  {
    forall i, j :: 0 <= i < |stats| && 0 <= j < |stats|
      && Peak(models, stats[i], ratio) <= Peak(models, stats[j], ratio)
      ==> w[stats[i].id] <= w[stats[j].id]
  }

  method CollectPeaks(models: seq<Disk>, stats: seq<Stats>, ratio: real) returns (loads: seq<nat>, total: nat)
    requires ValidStats(stats, models)
    ensures |loads| == |stats| && total == Sum(loads)
    ensures forall i :: 0 <= i < |stats| ==> loads[i] == Peak(models, stats[i], ratio)
  {
    loads, total := [], 0;
    for k := 0 to |stats|
      invariant |loads| == k && total == Sum(loads)
      invariant forall i :: 0 <= i < k ==> loads[i] == Peak(models, stats[i], ratio)
    {
      var peak := GetDiskPeak(models[stats[k].id], stats[k].mode, ratio);
      SumPush(loads, peak);
      loads := loads + [peak];
      total := total + peak;
    }
  }

  /** Lines 283-298 on the collected peaks. */
  method AssignShares(weights: Weights, stats: seq<Stats>, loads: seq<nat>, total: nat, median: nat)
    returns (w: Weights, sum: real)
    requires |weights| == MAX_SERVERS && Distinct(stats) && |loads| == |stats| && total > 0
    requires forall i :: 0 <= i < |stats| ==> stats[i].id < MAX_SERVERS
    requires forall id :: 0 <= id < MAX_SERVERS && !IsServer(stats, id) ==> weights[id] == 0.0
    ensures |w| == MAX_SERVERS && sum == WeightSum(w, stats, |stats|)
    ensures forall i :: 0 <= i < |stats| ==> w[stats[i].id] == BiasedShare(loads[i], total, median)
    ensures forall id :: 0 <= id < MAX_SERVERS && !IsServer(stats, id) ==> w[id] == 0.0
  {
    w, sum := weights, 0.0;
    for k := 0 to |stats|
      invariant |w| == MAX_SERVERS && sum == WeightSum(w, stats, k)
      invariant forall i :: 0 <= i < k ==> w[stats[i].id] == BiasedShare(loads[i], total, median)
      invariant forall id :: 0 <= id < MAX_SERVERS && !IsServer(stats, id) ==> w[id] == 0.0
    {
      var v := BiasedShare(loads[k], total, median);
      var w' := w[stats[k].id := v];
      WeightSumFrame(w, w', stats, k);
      w, sum := w', sum + v;
    }
  }

  /** Lines 304-307. */
  method Normalize(weights: Weights, stats: seq<Stats>, sum: real) returns (w: Weights)
    requires |weights| == MAX_SERVERS && Distinct(stats)
    requires forall i :: 0 <= i < |stats| ==> stats[i].id < MAX_SERVERS && weights[stats[i].id] >= 0.0
    requires forall id :: 0 <= id < MAX_SERVERS && !IsServer(stats, id) ==> weights[id] == 0.0
    requires sum == WeightSum(weights, stats, |stats|) && sum > 0.0
    ensures Distribution(w, stats)
    ensures forall i :: 0 <= i < |stats| ==> w[stats[i].id] == weights[stats[i].id] / sum
  {
    w := weights;
    for k := 0 to |stats|
      invariant |w| == MAX_SERVERS
      invariant forall i :: 0 <= i < k ==> w[stats[i].id] == weights[stats[i].id] / sum
      invariant forall i :: k <= i < |stats| ==> w[stats[i].id] == weights[stats[i].id]
      invariant forall id :: 0 <= id < MAX_SERVERS && !IsServer(stats, id) ==> w[id] == 0.0
    {
      w := w[stats[k].id := w[stats[k].id] / sum];
    }
    NormalizedIsDistribution(weights, w, stats, sum);
  }

  lemma NormalizedIsDistribution(weights: Weights, w: Weights, stats: seq<Stats>, sum: real)
    requires |weights| == |w| == MAX_SERVERS && sum > 0.0
    requires forall i :: 0 <= i < |stats| ==> stats[i].id < MAX_SERVERS && weights[stats[i].id] >= 0.0
    requires sum == WeightSum(weights, stats, |stats|)
    requires forall i :: 0 <= i < |stats| ==> w[stats[i].id] == weights[stats[i].id] / sum
    requires forall id :: 0 <= id < MAX_SERVERS && !IsServer(stats, id) ==> w[id] == 0.0
    ensures Distribution(w, stats)
  {
    NormalizedRange(weights, w, stats, sum);
    NormalizedTotal(weights, w, stats, sum);
  }

  lemma NormalizedTotal(weights: Weights, w: Weights, stats: seq<Stats>, sum: real)
    requires |weights| == |w| && sum > 0.0
    requires forall i :: 0 <= i < |stats| ==> stats[i].id < |w| && w[stats[i].id] == weights[stats[i].id] / sum
    requires sum == WeightSum(weights, stats, |stats|)
    ensures WeightSum(w, stats, |stats|) == 1.0
  {
    NormalizedSum(weights, w, stats, |stats|, sum);
    Cancel(WeightSum(w, stats, |stats|), sum);
  }

  lemma NormalizedRange(weights: Weights, w: Weights, stats: seq<Stats>, sum: real)
    requires |weights| == |w| && sum > 0.0
    requires forall i :: 0 <= i < |stats| ==> stats[i].id < |w| && weights[stats[i].id] >= 0.0
    requires sum == WeightSum(weights, stats, |stats|)
    requires forall i :: 0 <= i < |stats| ==> w[stats[i].id] == weights[stats[i].id] / sum
    ensures forall i :: 0 <= i < |stats| ==> 0.0 <= w[stats[i].id] <= 1.0
  {
    forall i | 0 <= i < |stats| ensures 0.0 <= w[stats[i].id] <= 1.0 {
      WeightSumAtLeast(weights, stats, |stats|, i);
      NormalizedShare(weights[stats[i].id], sum);
    }
  }

  lemma {:induction false} NormalizedSum(weights: Weights, w: Weights, stats: seq<Stats>, n: nat, sum: real)
    requires |weights| == |w| && n <= |stats| && sum > 0.0
    requires forall i :: 0 <= i < |stats| ==> stats[i].id < |w| && w[stats[i].id] == weights[stats[i].id] / sum
    ensures Times(WeightSum(w, stats, n), sum) == WeightSum(weights, stats, n)
  {
    if n > 0 {
      NormalizedSum(weights, w, stats, n - 1, sum);
      AddQuotient(WeightSum(w, stats, n - 1), weights[stats[n - 1].id], sum);
    }
  }

  lemma AddQuotient(a: real, v: real, sum: real)
    requires sum > 0.0
    ensures Times(a + v / sum, sum) == Times(a, sum) + v
  {
    assert (v / sum) * sum == v;
  }

  lemma Cancel(x: real, sum: real)
    requires sum > 0.0 && Times(x, sum) == sum
    ensures x == 1.0
  {
    assert (x - 1.0) * sum == 0.0;
  }

  lemma NormalizedShare(v: real, sum: real)
    requires 0.0 <= v <= sum && sum > 0.0
    ensures 0.0 <= v / sum <= 1.0
  {
    DivOrder(0.0, v, sum);
    DivOrder(v, sum, sum);
    assert sum / sum == 1.0;
  }

  method ComputeWeightsFromPeak(models: seq<Disk>, stats: seq<Stats>, load: Load) returns (r: Status<Weights>)
    requires ValidStats(stats, models)
    ensures r.Err? <==> |stats| < 2 || TotalOps(load) == 0
    ensures r.Err? ==> r.code == EAGAIN
    ensures r.Ok? ==> Distribution(r.value, stats) && FollowsPeaks(models, stats, WriteRatio(load), r.value)
  {
    if |stats| < 2 || TotalOps(load) == 0 {
      return Err(EAGAIN);
    }
    var ratio := WriteRatio(load);
    var w := ResetWeights(seq(MAX_SERVERS, _ => 0.0), stats);
    var loads, total := CollectPeaks(models, stats, ratio);
    if total == 0 {
      return Ok(w);
    }
    var sorted := SortLoads(loads);
    assert |sorted| == |multiset(sorted)| == |multiset(loads)| == |loads|;
    var median := sorted[|sorted| / 2];
    var shares, sum := AssignShares(w, stats, loads, total, median);
    MedianHasWeight(stats, loads, sorted, total, shares, sum);
    var normal := Normalize(shares, stats, sum);
    NormalFollowsPeaks(models, stats, ratio, loads, total, median, shares, sum, normal);
    return Ok(normal);
  }

  /** The server holding the median load keeps a positive weight, so the sum is never zero. */
  lemma MedianHasWeight(stats: seq<Stats>, loads: seq<nat>, sorted: seq<nat>, total: nat, w: Weights, sum: real)
    requires |sorted| == |loads| == |stats| > 0 && multiset(sorted) == multiset(loads) && total > 0
    requires |w| == MAX_SERVERS && forall i :: 0 <= i < |stats| ==> stats[i].id < MAX_SERVERS
    requires forall i :: 0 <= i < |stats| ==>
      w[stats[i].id] == BiasedShare(loads[i], total, sorted[|sorted| / 2])
    requires sum == WeightSum(w, stats, |stats|)
    ensures sum > 0.0 && forall i :: 0 <= i < |stats| ==> w[stats[i].id] >= 0.0
  {
    var median := sorted[|sorted| / 2];
    assert median in multiset(sorted);
    assert median in loads;
    var m :| 0 <= m < |loads| && loads[m] == median;
    forall i | 0 <= i < |stats| ensures w[stats[i].id] >= 0.0 {
      BiasedShareFacts(loads[i], total, median);
    }
    BiasedShareFacts(loads[m], total, median);
    WeightSumAtLeast(w, stats, |stats|, m);
  }

  lemma NormalFollowsPeaks(models: seq<Disk>, stats: seq<Stats>, ratio: real, loads: seq<nat>, total: nat, median: nat,
                           shares: Weights, sum: real, w: Weights)
    requires ValidStats(stats, models) && |loads| == |stats| && total > 0 && sum > 0.0
    requires |w| == |shares| == MAX_SERVERS
    requires forall i :: 0 <= i < |stats| ==> loads[i] == Peak(models, stats[i], ratio)
    requires forall i :: 0 <= i < |stats| ==> shares[stats[i].id] == BiasedShare(loads[i], total, median)
    requires forall i :: 0 <= i < |stats| ==> w[stats[i].id] == shares[stats[i].id] / sum
    ensures FollowsPeaks(models, stats, ratio, w)
  {
    forall i, j | 0 <= i < |stats| && 0 <= j < |stats|
      && Peak(models, stats[i], ratio) <= Peak(models, stats[j], ratio)
      ensures w[stats[i].id] <= w[stats[j].id]
    {
      BiasedShareMonotone(loads[i], loads[j], total, median);
      DivOrder(shares[stats[i].id], shares[stats[j].id], sum);
    }
  }

  // ---------------------------------------------------------------- choosing a method

  function PeakMode(mode: Mode): Mode {
    if mode == ReadMode then ReadMode else WriteMode
  }

  /** Modelled peak of the first n servers together. */
  function Capacity(models: seq<Disk>, stats: seq<Stats>, n: nat): nat
    requires n <= |stats| && forall i :: 0 <= i < |stats| ==> stats[i].id < |models| && ValidDisk(models[stats[i].id])
  {
    if n == 0 then 0
    else Capacity(models, stats, n - 1) + DiskPeak(models[stats[n - 1].id], PeakMode(stats[n - 1].mode), 0.0)
  }

  function OpCount(load: Load, op: OpType): nat {
    if op == ReadOp then load.readOps else load.writeOps
  }

  predicate BelowThreshold(models: seq<Disk>, stats: seq<Stats>, op: OpType, load: Load)
    requires ValidStats(stats, models)
  {
    OpCount(load, op) as real < Capacity(models, stats, |stats|) as real * PEAK_THRESHOLD
  }

  method UseIterativeMethod(models: seq<Disk>, stats: seq<Stats>, op: OpType, load: Load) returns (r: bool)
    requires ValidStats(stats, models)
    ensures r <==> BelowThreshold(models, stats, op, load)
  {
    var total := 0;
    for k := 0 to |stats|
      invariant total == Capacity(models, stats, k)
    {
      var peak := GetDiskPeak(models[stats[k].id], PeakMode(stats[k].mode), 0.0);
      total := total + peak;
    }
    r := OpCount(load, op) as real < total as real * PEAK_THRESHOLD;
  }

  /** Balanced with one of the bounds 0.05, 0.10, ... below 1. */
  ghost predicate BalancedAtStep(models: seq<Disk>, stats: seq<Stats>, op: OpType, load: Load, w: Weights, k: nat)
    requires |stats| > 0 && TotalOps(load) > 0 && Measurable(models, stats, w)
  {
    k > 0 && STABLE_BOUND * k as real < MAX_BOUND && BalancedBy(models, stats, op, load, w, STABLE_BOUND * k as real)
  }

  /** What ComputeWeights promises: an error exactly without two servers and traffic, otherwise a
      distribution that balances the modelled latencies or follows the modelled peaks. */
  ghost predicate Weighted(models: seq<Disk>, stats: seq<Stats>, op: OpType, load: Load, r: Status<Weights>)
    requires ValidStats(stats, models)
  {
    && (r.Err? <==> |stats| < 2 || TotalOps(load) == 0)
    && (r.Err? ==> r.code == EAGAIN)
    && (r.Ok? ==> Distribution(r.value, stats) && Measurable(models, stats, r.value))
    && (r.Ok? ==>
      || (exists k: nat :: BalancedAtStep(models, stats, op, load, r.value, k))
      || FollowsPeaks(models, stats, WriteRatio(load), r.value))
  }

  /** Lines 96-103: widen the bound in steps until the iterative method succeeds. */
  method SearchBound(models: seq<Disk>, stats: seq<Stats>, op: OpType, load: Load) returns (r: Status<Weights>)
    requires ValidStats(stats, models)
    ensures r.Ok? ==> |stats| >= 2 && TotalOps(load) > 0 && Distribution(r.value, stats)
    ensures r.Ok? ==> Measurable(models, stats, r.value)
    ensures r.Ok? ==> exists k: nat :: BalancedAtStep(models, stats, op, load, r.value, k)
    ensures |stats| >= 2 && TotalOps(load) > 0 && StartsStable(models, stats, op, load, STABLE_BOUND)
      ==> r == Ok(EqualWeights(stats))
  {
    var bound := STABLE_BOUND;
    ghost var k: nat := 1;
    while bound < MAX_BOUND
      invariant k > 0 && bound == STABLE_BOUND * k as real
      invariant |stats| >= 2 && TotalOps(load) > 0 && StartsStable(models, stats, op, load, STABLE_BOUND) ==> k == 1
      decreases 20 - k
    {
      r := ComputeWeightsIterative(models, stats, op, load, bound);
      if r.Ok? {
        assert BalancedAtStep(models, stats, op, load, r.value, k);
        return;
      }
      bound, k := bound + STABLE_BOUND, k + 1;
    }
    r := Err(EAGAIN);
  }

  method ComputeWeights(models: seq<Disk>, stats: seq<Stats>, op: OpType, load: Load) returns (r: Status<Weights>)
    requires ValidStats(stats, models)
    ensures Weighted(models, stats, op, load, r)
    ensures ByThreshold(models, stats, op, load, r)
  {
    var iterative := UseIterativeMethod(models, stats, op, load);
    if iterative {
      r := SearchBound(models, stats, op, load);
      if r.Ok? {
        return;
      }
    }
    r := ComputeWeightsFromPeak(models, stats, load);
    if r.Ok? {
      DistributionIsMeasurable(models, stats, r.value);
    }
  }

  /** Above the threshold the peaks decide; below it, weights that are stable from the start stay equal. */
  ghost predicate ByThreshold(models: seq<Disk>, stats: seq<Stats>, op: OpType, load: Load, r: Status<Weights>)
    requires ValidStats(stats, models) && Weighted(models, stats, op, load, r)
  {
    && (r.Ok? && !BelowThreshold(models, stats, op, load) ==> FollowsPeaks(models, stats, WriteRatio(load), r.value))
    && (|stats| >= 2 && TotalOps(load) > 0 && BelowThreshold(models, stats, op, load) ==>
      StartsStable(models, stats, op, load, STABLE_BOUND) ==> r == Ok(EqualWeights(stats)))
  }

  method ComputeReadWeights(models: seq<Disk>, stats: seq<Stats>, load: Load) returns (r: Status<Weights>)
    requires ValidStats(stats, models)
    ensures Weighted(models, stats, ReadOp, load, r) && ByThreshold(models, stats, ReadOp, load, r)
  {
    r := ComputeWeights(models, stats, ReadOp, load);
  }

  /** The servers that take writes, in order. */
  function Writable(stats: seq<Stats>): (r: seq<Stats>)
    ensures forall s :: s in r <==> s in stats && s.mode != ReadMode
  {
    if stats == [] then []
    else
      var l := |stats| - 1;
      Writable(stats[..l]) + if stats[l].mode != ReadMode then [stats[l]] else []
  }

  lemma {:induction false} WritableDistinct(stats: seq<Stats>)
    requires Distinct(stats)
    ensures Distinct(Writable(stats))
  {
    if stats != [] {
      var l := |stats| - 1;
      WritableDistinct(stats[..l]);
      var prefix := Writable(stats[..l]);
      forall i | 0 <= i < |prefix| ensures prefix[i].id != stats[l].id {
        assert prefix[i] in stats[..l];
      }
    }
  }

  lemma WritableValid(stats: seq<Stats>, models: seq<Disk>)
    requires ValidStats(stats, models)
    ensures ValidStats(Writable(stats), models)
  {
    WritableDistinct(stats);
    forall i | 0 <= i < |Writable(stats)|
      ensures Writable(stats)[i].id < MAX_SERVERS && ValidDisk(models[Writable(stats)[i].id])
    {
      assert Writable(stats)[i] in stats;
    }
  }

  method ComputeWriteWeights(models: seq<Disk>, stats: seq<Stats>, load: Load) returns (r: Status<Weights>)
    requires ValidStats(stats, models)
    ensures ValidStats(Writable(stats), models) && Weighted(models, Writable(stats), WriteOp, load, r)
    ensures ByThreshold(models, Writable(stats), WriteOp, load, r)
    ensures r.Ok? ==> Distribution(r.value, stats)
    ensures r.Ok? ==> forall i :: 0 <= i < |stats| && stats[i].mode == ReadMode ==> r.value[stats[i].id] == 0.0
  {
    var filtered := [];
    for k := 0 to |stats|
      invariant filtered == Writable(stats[..k])
    {
      assert stats[..k + 1][..k] == stats[..k];
      if stats[k].mode != ReadMode {
        filtered := filtered + [stats[k]];
      }
    }
    assert stats[..|stats|] == stats;
    WritableValid(stats, models);
    r := ComputeWeights(models, filtered, WriteOp, load);
    if r.Ok? {
      WriteWeightsCoverAll(stats, r.value);
    }
  }

  /** A distribution over the writable servers is one over all servers, zero on the others. */
  lemma WriteWeightsCoverAll(stats: seq<Stats>, w: Weights)
    requires Distinct(stats) && (forall i :: 0 <= i < |stats| ==> stats[i].id < MAX_SERVERS)
    requires Distribution(w, Writable(stats))
    ensures Distribution(w, stats)
    ensures forall i :: 0 <= i < |stats| && stats[i].mode == ReadMode ==> w[stats[i].id] == 0.0
  {
    forall i | 0 <= i < |stats|
      ensures 0.0 <= w[stats[i].id] <= 1.0 && (stats[i].mode == ReadMode ==> w[stats[i].id] == 0.0)
    {
      WriteWeight(stats, w, i);
    }
    WritableSum(stats, w);
    forall id | 0 <= id < MAX_SERVERS && !IsServer(stats, id) ensures w[id] == 0.0 {
      WritableIsServer(stats, id);
    }
  }

  lemma WriteWeight(stats: seq<Stats>, w: Weights, i: nat)
    requires Distinct(stats) && i < |stats| && stats[i].id < MAX_SERVERS && Distribution(w, Writable(stats))
    ensures 0.0 <= w[stats[i].id] <= 1.0 && (stats[i].mode == ReadMode ==> w[stats[i].id] == 0.0)
  {
    WritableServer(stats, i);
  }

  lemma WritableIsServer(stats: seq<Stats>, id: nat)
    ensures IsServer(Writable(stats), id) ==> IsServer(stats, id)
  {
    if j :| 0 <= j < |Writable(stats)| && Writable(stats)[j].id == id {
      assert Writable(stats)[j] in stats;
    }
  }

  lemma WritableServer(stats: seq<Stats>, i: nat)
    requires i < |stats| && Distinct(stats)
    ensures IsServer(Writable(stats), stats[i].id) <==> stats[i].mode != ReadMode
  {
    var kept := Writable(stats);
    if stats[i].mode != ReadMode {
      assert stats[i] in kept;
    }
    forall j | 0 <= j < |kept| ensures kept[j].id == stats[i].id ==> kept[j] == stats[i] {
      assert kept[j] in stats;
      SameIdSameServer(stats, kept[j], i);
    }
    forall j | 0 <= j < |kept| ensures kept[j].mode != ReadMode {
      assert kept[j] in kept;
    }
  }

  lemma SameIdSameServer(stats: seq<Stats>, s: Stats, i: nat)
    requires i < |stats| && Distinct(stats) && s in stats
    ensures s.id == stats[i].id ==> s == stats[i]
  {
  }

  lemma {:induction false} WritableSum(stats: seq<Stats>, w: Weights)
    requires forall i :: 0 <= i < |stats| ==> stats[i].id < |w|
    requires forall i :: 0 <= i < |stats| && stats[i].mode == ReadMode ==> w[stats[i].id] == 0.0
    ensures forall i :: 0 <= i < |Writable(stats)| ==> Writable(stats)[i].id < |w|
    ensures WeightSum(w, Writable(stats), |Writable(stats)|) == WeightSum(w, stats, |stats|)
  {
    if stats != [] {
      var l := |stats| - 1;
      WritableSum(stats[..l], w);
      WeightSumPrefix(w, stats[..l], stats, l);
      WeightSumPrefix(w, Writable(stats[..l]), Writable(stats), |Writable(stats[..l])|);
    }
  }

  lemma {:induction false} WeightSumPrefix(w: Weights, a: seq<Stats>, b: seq<Stats>, n: nat)
    requires n <= |a| && n <= |b| && a[..n] == b[..n]
    requires (forall i :: 0 <= i < |a| ==> a[i].id < |w|) && (forall i :: 0 <= i < |b| ==> b[i].id < |w|)
    ensures WeightSum(w, a, n) == WeightSum(w, b, n)
  {
    if n > 0 {
      assert a[..n - 1] == a[..n][..n - 1] == b[..n - 1];
      assert a[n - 1] == a[..n][n - 1] == b[n - 1];
      WeightSumPrefix(w, a, b, n - 1);
    }
  }
}
