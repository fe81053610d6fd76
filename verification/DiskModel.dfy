/**
 The SSD latency model of sandook/disk_model/disk_model.h: a load/latency curve
 searched and interpolated by the scheduler.  Doubles are modelled by `real`.
 */
module DiskModel {
  import opened RealArithmetic

  const SATURATION_US: nat := 1000
  /** static_cast<uint64_t>(kSaturationLatencyUs * 1.05). */
  const PENALTY_US: nat := 1050

  datatype Curve = Curve(load: seq<nat>, latency: seq<nat>)

  ghost predicate NonDecreasing(s: seq<nat>) {
    forall i, j :: 0 <= i <= j < |s| ==> s[i] <= s[j]
  }

  ghost predicate ValidCurve(c: Curve) {
    |c.load| == |c.latency| > 0 && NonDecreasing(c.load) && NonDecreasing(c.latency)
  }

  // ---------------------------------------------------------------- arithmetic

  /** The part of range that d is of width. */
  function Share(range: nat, d: nat, width: nat): real
    requires width > 0
  {
    range as real * (d as real / width as real)
  }

  lemma ShareOrder(range: nat, d: nat, e: nat, width: nat)
    requires d <= e && width > 0
    ensures Share(range, d, width) <= Share(range, e, width)
  {
    DivOrder(d as real, e as real, width as real);
    MulOrder(range as real, d as real / width as real, e as real / width as real);
  }

  lemma ShareEnds(range: nat, width: nat)
    requires width > 0
    ensures Share(range, 0, width) == 0.0 && Share(range, width, width) == range as real
  {
    DivSelf(width as real);
  }

  /** Interpolated latency increment: floor(range * (d / width)). */
  function Increment(range: nat, d: nat, width: nat): (r: nat)
    requires d <= width && width > 0
    ensures r <= range
  {
    ShareEnds(range, width);
    ShareOrder(range, 0, d, width);
    ShareOrder(range, d, width, width);
    Share(range, d, width).Floor
  }

  lemma IncrementMonotone(range: nat, d: nat, e: nat, width: nat)
    requires d <= e <= width && width > 0
    ensures Increment(range, d, width) <= Increment(range, e, width)
    ensures Increment(range, width, width) == range
  {
    ShareOrder(range, d, e, width);
    ShareEnds(range, width);
  }

  // ---------------------------------------------------------------- latency

  /** First index whose load is at least `cur`; |load| if there is none. */
  function FirstAtLeast(load: seq<nat>, cur: nat, from: nat): (i: nat)
    requires from <= |load|
    ensures from <= i <= |load|
    ensures i < |load| ==> load[i] >= cur
    ensures forall j :: from <= j < i ==> load[j] < cur
    decreases |load| - from
  {
    if from == |load| || load[from] >= cur then from else FirstAtLeast(load, cur, from + 1)
  }

  function Clamp(x: nat): nat {
    if x < PENALTY_US then x else PENALTY_US
  }

  /** The model's latency at `cur`, from the curve's definition. */
  ghost function Latency(c: Curve, cur: nat): nat
    requires ValidCurve(c)
  {
    var i := FirstAtLeast(c.load, cur, 0);
    if i == |c.load| then PENALTY_US
    else if i == 0 then Clamp(c.latency[0])
    else Clamp(c.latency[i - 1]
               + Increment(c.latency[i] - c.latency[i - 1], cur - c.load[i - 1], c.load[i] - c.load[i - 1]))
  }

  /** Static GetLatency: never divides by zero on a valid curve. */
  method GetLatency(cur: nat, c: Curve) returns (r: nat)
    requires ValidCurve(c)
    ensures r == Latency(c, cur)
  {
    var idx := |c.load|;
    var i := 0;
    while i < |c.load|
      invariant 0 <= i <= |c.load| && idx == |c.load|
      invariant FirstAtLeast(c.load, cur, 0) == FirstAtLeast(c.load, cur, i)
    {
      if c.load[i] >= cur {
        idx := i;
        break;
      }
      i := i + 1;
    }
    assert idx == FirstAtLeast(c.load, cur, 0);
    var lat := 0;
    if idx == |c.load| {
      lat := PENALTY_US;
    } else if idx == 0 {
      lat := c.latency[0];
    } else {
      var startLoad, endLoad := c.load[idx - 1], c.load[idx];
      var startLat, endLat := c.latency[idx - 1], c.latency[idx];
      lat := startLat + Increment(endLat - startLat, cur - startLoad, endLoad - startLoad);
    }
    r := if lat < PENALTY_US then lat else PENALTY_US;
  }

  /** Between two points of the curve the latency stays between theirs. */
  lemma LatencyBracket(c: Curve, cur: nat)
    requires ValidCurve(c)
    ensures
      var i := FirstAtLeast(c.load, cur, 0);
      && (i < |c.load| ==> Latency(c, cur) <= Clamp(c.latency[i]))
      && (0 < i ==> Clamp(c.latency[i - 1]) <= Latency(c, cur))
      && Latency(c, cur) <= PENALTY_US
  {
  }

  lemma FirstAtLeastMonotone(load: seq<nat>, a: nat, b: nat)
    requires a <= b
    ensures FirstAtLeast(load, a, 0) <= FirstAtLeast(load, b, 0)
  {
    var j := FirstAtLeast(load, b, 0);
    assert j == |load| || load[j] >= b;
  }

  /** More load never lowers the modelled latency, and it never exceeds 1050 us. */
  lemma LatencyMonotone(c: Curve, a: nat, b: nat)
    requires ValidCurve(c) && a <= b
    ensures Latency(c, a) <= Latency(c, b) <= PENALTY_US
  {
    FirstAtLeastMonotone(c.load, a, b);
    var i, j := FirstAtLeast(c.load, a, 0), FirstAtLeast(c.load, b, 0);
    LatencyBracket(c, a);
    LatencyBracket(c, b);
    if i == j {
      if 0 < i < |c.load| {
        IncrementMonotone(c.latency[i] - c.latency[i - 1], a - c.load[i - 1], b - c.load[i - 1], c.load[i] - c.load[i - 1]);
      }
    } else {
      assert c.latency[i] <= c.latency[j - 1];
    }
  }

  // ---------------------------------------------------------------- peak IOPS

  /** First index whose latency has reached saturation; |latency| if there is none. */
  function FirstSaturated(latency: seq<nat>, from: nat): (i: nat)
    requires from <= |latency|
    ensures from <= i <= |latency|
    ensures i < |latency| ==> latency[i] >= SATURATION_US
    ensures forall j :: from <= j < i ==> latency[j] < SATURATION_US
    decreases |latency| - from
  {
    if from == |latency| || latency[from] >= SATURATION_US then from else FirstSaturated(latency, from + 1)
  }

  /** The largest load before saturation. */
  function Knee(c: Curve): nat
    requires |c.load| == |c.latency| > 0
  {
    var i := FirstSaturated(c.latency, 0);
    if i == 0 then 0 else c.load[i - 1]
  }

  function Dampened(load: nat): (r: nat)
    ensures r <= load
  {
    (load as real * 0.95).Floor
  }

  method GetPeakIOPS(c: Curve) returns (r: nat)
    requires |c.load| == |c.latency| > 0
    ensures r == Dampened(Knee(c))
  {
    var ret := c.load[|c.load| - 1];
    var i := 0;
    while i < |c.load|
      invariant 0 <= i <= |c.load| && ret == c.load[|c.load| - 1]
      invariant FirstSaturated(c.latency, 0) == FirstSaturated(c.latency, i)
    {
      if c.latency[i] >= SATURATION_US {
        ret := if i == 0 then 0 else c.load[i - 1];
        break;
      }
      i := i + 1;
    }
    r := (ret as real * 0.95).Floor;
  }

  /**
   Up to the peak the modelled latency is below saturation, exactly when the curve
   does not start saturated; a positive peak guarantees it.
   */
  lemma BelowSaturationUpToPeak(c: Curve)
    requires ValidCurve(c)
    ensures (forall l :: 0 <= l <= Dampened(Knee(c)) ==> Latency(c, l) < SATURATION_US) <==> c.latency[0] < SATURATION_US
    ensures Dampened(Knee(c)) > 0 ==> c.latency[0] < SATURATION_US
  {
    var i := FirstSaturated(c.latency, 0);
    if c.latency[0] < SATURATION_US {
      forall l | 0 <= l <= Dampened(Knee(c)) ensures Latency(c, l) < SATURATION_US {
        assert c.load[i - 1] >= l;
        assert FirstAtLeast(c.load, l, 0) <= i - 1;
        LatencyBracket(c, l);
      }
    } else {
      assert FirstAtLeast(c.load, 0, 0) == 0;
      assert Latency(c, 0) >= SATURATION_US;
    }
  }

  // ---------------------------------------------------------------- one disk

  datatype Mode = Mix | ReadMode | WriteMode
  datatype OpType = ReadOp | WriteOp

  /** A mixed model serves write ratios up to its bucket. */
  datatype MixModel = MixModel(bucket: real, curve: Curve)
  datatype Disk = Disk(read: Curve, write: Curve, mixes: seq<MixModel>)

  /** What LoadModels guarantees: at least one mixed model, buckets in ascending order. */
  ghost predicate ValidDisk(d: Disk) {
    && ValidCurve(d.read) && ValidCurve(d.write) && |d.mixes| > 0
    && (forall i :: 0 <= i < |d.mixes| ==> ValidCurve(d.mixes[i].curve))
    && (forall i, j :: 0 <= i < j < |d.mixes| ==> d.mixes[i].bucket < d.mixes[j].bucket)
  }

  function ClampRatio(ratio: real): real {
    if ratio < 0.0 then 0.0 else if ratio > 1.0 then 1.0 else ratio
  }

  function MixIndex(mixes: seq<MixModel>, ratio: real, from: nat): (i: nat)
    requires from <= |mixes|
    ensures from <= i <= |mixes|
    ensures i < |mixes| ==> ratio <= mixes[i].bucket
    ensures forall j :: from <= j < i ==> mixes[j].bucket < ratio
    decreases |mixes| - from
  {
    if from == |mixes| || ratio <= mixes[from].bucket then from else MixIndex(mixes, ratio, from + 1)
  }

  function SelectedMix(mixes: seq<MixModel>, ratio: real): nat
    requires |mixes| > 0
  {
    var i := MixIndex(mixes, ClampRatio(ratio), 0);
    if i == |mixes| then i - 1 else i
  }

  /** Rounds the write ratio up to the next available bucket, or takes the highest. */
  method SelectMixModel(mixes: seq<MixModel>, ratio: real) returns (m: MixModel)
    requires |mixes| > 0
    ensures m == mixes[SelectedMix(mixes, ratio)]
  {
    var r := ClampRatio(ratio);
    var i := 0;
    while i < |mixes|
      invariant 0 <= i <= |mixes| && MixIndex(mixes, r, 0) == MixIndex(mixes, r, i)
    {
      if r <= mixes[i].bucket {
        return mixes[i];
      }
      i := i + 1;
    }
    return mixes[|mixes| - 1];
  }

  /** A heavier write mix never selects a lighter model. */
  lemma SelectedMixMonotone(mixes: seq<MixModel>, a: real, b: real)
    requires |mixes| > 0 && a <= b
    ensures SelectedMix(mixes, a) <= SelectedMix(mixes, b)
  {
    var j := MixIndex(mixes, ClampRatio(b), 0);
    assert j == |mixes| || ClampRatio(b) <= mixes[j].bucket;
  }

  /** The curve GetLatency(load, op, mode, ratio) consults. */
  function LatencyCurve(d: Disk, op: OpType, mode: Mode, ratio: real): Curve
    requires |d.mixes| > 0
  {
    if op == ReadOp && mode == ReadMode then d.read
    else if op == WriteOp && mode == WriteMode then d.write
    else d.mixes[SelectedMix(d.mixes, ratio)].curve
  }

  /** The curve GetPeakIOPS(mode, ratio) consults. */
  function PeakCurve(d: Disk, mode: Mode, ratio: real): Curve
    requires |d.mixes| > 0
  {
    match mode
    case ReadMode => d.read
    case WriteMode => d.write
    case Mix => d.mixes[SelectedMix(d.mixes, ratio)].curve
  }

  ghost function DiskLatency(d: Disk, load: nat, op: OpType, mode: Mode, ratio: real): nat
    requires ValidDisk(d)
  {
    Latency(LatencyCurve(d, op, mode, ratio), load)
  }

  method GetDiskLatency(d: Disk, load: nat, op: OpType, mode: Mode, ratio: real) returns (r: nat)
    requires ValidDisk(d)
    ensures r == DiskLatency(d, load, op, mode, ratio) <= PENALTY_US
  {
    LatencyBracket(LatencyCurve(d, op, mode, ratio), load);
    if op == ReadOp && mode == ReadMode {
      r := GetLatency(load, d.read);
    } else if op == WriteOp && mode == WriteMode {
      r := GetLatency(load, d.write);
    } else {
      var mix := SelectMixModel(d.mixes, ratio);
      r := GetLatency(load, mix.curve);
    }
  }

  function DiskPeak(d: Disk, mode: Mode, ratio: real): nat
    requires ValidDisk(d)
  {
    Dampened(Knee(PeakCurve(d, mode, ratio)))
  }

  /** The curve is below saturation at every load up to r. */
  ghost predicate BelowSaturation(c: Curve, r: nat)
    requires ValidCurve(c)
  {
    forall l :: 0 <= l <= r ==> Latency(c, l) < SATURATION_US
  }

  /** The modelled peak; the chosen curve stays below saturation up to any positive peak. */
  method GetDiskPeak(d: Disk, mode: Mode, ratio: real) returns (r: nat)
    requires ValidDisk(d)
    ensures r == DiskPeak(d, mode, ratio)
    ensures r > 0 ==> BelowSaturation(PeakCurve(d, mode, ratio), r)
  {
    BelowSaturationUpToPeak(PeakCurve(d, mode, ratio));
    match mode {
      case ReadMode => r := GetPeakIOPS(d.read);
      case WriteMode => r := GetPeakIOPS(d.write);
      case Mix =>
        var mix := SelectMixModel(d.mixes, ratio);
        r := GetPeakIOPS(mix.curve);
    }
  }
}
