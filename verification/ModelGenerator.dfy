/**
 Turning a measured SSD profile into a model curve (scripts/generate_ssd_models.py).
 Python floats are modelled by `real`, `int(...)` by truncation toward zero.
 */
module ModelGenerator {
  import opened Wrappers
  import opened DiskModel
  import opened RealArithmetic

  datatype Measured = NaN | Infinite(negative: bool) | Value(v: real)
  /** One line of a profile; a load is a number or missing. */
  datatype Row = Row(dropped: Measured, load: Option<real>, latency: Measured)
  datatype Point = Point(load: int, latency: real)

  function Trunc(x: real): int {
    if x >= 0.0 then x.Floor else -((-x).Floor)
  }

  lemma TruncMonotone(x: real, y: real)
    requires x <= y
    ensures Trunc(x) <= Trunc(y)
  {
  }

  /** Non-decreasing in load and in latency. */
  ghost predicate Rising(ps: seq<Point>) {
    forall i, j :: 0 <= i <= j < |ps| ==> ps[i].load <= ps[j].load && ps[i].latency <= ps[j].latency
  }

  ghost predicate AtLeast(ps: seq<Point>, load: int, latency: real) {
    forall i :: 0 <= i < |ps| ==> load <= ps[i].load && latency <= ps[i].latency
  }

  lemma RisingAppend(ps: seq<Point>, p: Point)
    requires Rising(ps) && (ps != [] ==> ps[|ps| - 1].load <= p.load && ps[|ps| - 1].latency <= p.latency)
    ensures Rising(ps + [p])
  {
    var q := ps + [p];
    forall i, j | 0 <= i <= j < |q| ensures q[i].load <= q[j].load && q[i].latency <= q[j].latency {
      if j == |ps| && i < j {
        assert ps[i].load <= ps[|ps| - 1].load && ps[i].latency <= ps[|ps| - 1].latency;
      }
    }
  }

  // ---------------------------------------------------------------- monotonic points

  predicate Dropped(d: Measured) {
    match d
    case NaN => false
    case Infinite(negative) => !negative
    case Value(v) => v > 0.0
  }

  /** A row is usable when nothing was dropped and both values are numbers. */
  predicate Usable(row: Row) {
    !Dropped(row.dropped) && row.load.Some? && row.latency.Value?
  }

  /** The point a row contributes after a point at (load, latency), if any. */
  function NextPoint(row: Row, load: int, latency: real): Option<Point> {
    if Usable(row) && Trunc(row.load.value) >= load && row.latency.v >= latency
    then Some(Point(Trunc(row.load.value), row.latency.v)) else None
  }

  function PointsFrom(rows: seq<Row>, load: int, latency: real): seq<Point> {
    if rows == [] then []
    else
      match NextPoint(rows[0], load, latency)
      case None => PointsFrom(rows[1..], load, latency)
      case Some(p) => [p] + PointsFrom(rows[1..], p.load, p.latency)
  }

  lemma PointsStep(rows: seq<Row>, i: nat, load: int, latency: real)
    requires i < |rows|
    ensures PointsFrom(rows[i..], load, latency) ==
      match NextPoint(rows[i], load, latency)
      case None => PointsFrom(rows[i + 1..], load, latency)
      case Some(p) => [p] + PointsFrom(rows[i + 1..], p.load, p.latency)
  {
    assert rows[i..][0] == rows[i] && rows[i..][1..] == rows[i + 1..];
  }

  /** The filtered points rise and never fall below where the filter started. */
  lemma {:induction false} PointsRise(rows: seq<Row>, load: int, latency: real)
    ensures Rising(PointsFrom(rows, load, latency)) && AtLeast(PointsFrom(rows, load, latency), load, latency)
  {
    if rows != [] {
      match NextPoint(rows[0], load, latency)
      case None => PointsRise(rows[1..], load, latency);
      case Some(p) => PointsRise(rows[1..], p.load, p.latency);
    }
  }

  /** Lines 139-165: greedy filter, starting from load -1 and latency -1. */
  method IterMonotonicProfilePoints(rows: seq<Row>) returns (points: seq<Point>)
    ensures points == PointsFrom(rows, -1, -1.0)
    ensures Rising(points) && AtLeast(points, -1, -1.0)
  {
    points := [];
    var prevLoad, prevLat := -1, -1.0;
    for i := 0 to |rows|
      invariant points + PointsFrom(rows[i..], prevLoad, prevLat) == PointsFrom(rows, -1, -1.0)
    {
      PointsStep(rows, i, prevLoad, prevLat);
      var row := rows[i];
      if Dropped(row.dropped) {
        continue;
      }
      if row.load.None? || !row.latency.Value? {
        continue;
      }
      var load, lat := Trunc(row.load.value), row.latency.v;
      if load < prevLoad || lat < prevLat {
        continue;
      }
      assert points + ([Point(load, lat)] + PointsFrom(rows[i + 1..], load, lat))
          == points + [Point(load, lat)] + PointsFrom(rows[i + 1..], load, lat);
      prevLoad, prevLat := load, lat;
      points := points + [Point(load, lat)];
    }
    PointsRise(rows, -1, -1.0);
  }

  // ---------------------------------------------------------------- dampening

  /** Index of the first point above saturation latency. */
  function FirstAbove(points: seq<Point>, sat: int, from: nat): (i: nat)
    requires from <= |points|
    ensures from <= i <= |points|
    ensures forall j :: from <= j < i ==> points[j].latency <= sat as real
    ensures i < |points| ==> points[i].latency > sat as real
    decreases |points| - from
  {
    if from == |points| || points[from].latency > sat as real then from else FirstAbove(points, sat, from + 1)
  }

  /** Index of the first point with load at least `start`. */
  function FirstReaching(points: seq<Point>, start: int, from: nat): (i: nat)
    requires from <= |points|
    ensures from <= i <= |points|
    ensures forall j :: from <= j < i ==> points[j].load < start
    ensures i < |points| ==> points[i].load >= start
    decreases |points| - from
  {
    if from == |points| || points[from].load >= start then from else FirstReaching(points, start, from + 1)
  }

  function Lerp(a: real, b: real, pct: real): real {
    a + (b - a) * pct
  }

  /** The point at fraction `pct` of the line from (l0, t0) to (l1, t1). */
  function PointAt(l0: int, t0: real, l1: int, t1: real, pct: real): Point {
    Point(Trunc(Lerp(l0 as real, l1 as real, pct)), Lerp(t0, t1, pct))
  }

  function Ramp(l0: int, t0: real, l1: int, t1: real, i: nat, n: nat): Point
    requires n > 0
  {
    PointAt(l0, t0, l1, t1, i as real / n as real)
  }

  /** The first n points of the ramp. */
  function RampPoints(l0: int, t0: real, l1: int, t1: real, n: nat): seq<Point> {
    seq(n, i requires 0 <= i < n => Ramp(l0, t0, l1, t1, i, n))
  }

  /** The ramp ends where it should. */
  lemma RampEnds(l0: int, t0: real, l1: int, t1: real, n: nat)
    requires n > 0
    ensures Ramp(l0, t0, l1, t1, n, n) == Point(l1, t1)
  {
    DivSelf(n as real);
  }

  lemma LerpRises(a: real, b: real, p: real, q: real)
    requires a <= b && 0.0 <= p <= q <= 1.0
    ensures a <= Lerp(a, b, p) <= Lerp(a, b, q) <= b
  {
    MulOrder(b - a, 0.0, p);
    MulOrder(b - a, p, q);
    MulOrder(b - a, q, 1.0);
    assert (b - a) * 0.0 == 0.0 && (b - a) * 1.0 == b - a;
  }

  lemma FractionRange(d: nat, width: nat)
    requires d <= width && width > 0
    ensures 0.0 <= d as real / width as real <= 1.0
  {
    var w := width as real;
    DivOrder(0.0, d as real, w);
    DivOrder(d as real, w, w);
    DivSelf(w);
  }

  lemma RampRises(l0: int, t0: real, l1: int, t1: real, i: nat, j: nat, n: nat)
    requires n > 0 && i <= j <= n && l0 <= l1 && t0 <= t1
    ensures l0 <= Ramp(l0, t0, l1, t1, i, n).load <= Ramp(l0, t0, l1, t1, j, n).load <= l1
    ensures t0 <= Ramp(l0, t0, l1, t1, i, n).latency <= Ramp(l0, t0, l1, t1, j, n).latency <= t1
  {
    DivOrder(i as real, j as real, n as real);
    FractionRange(i, n);
    FractionRange(j, n);
    PointAtRises(l0, t0, l1, t1, i as real / n as real, j as real / n as real);
  }

  lemma PointAtRises(l0: int, t0: real, l1: int, t1: real, p: real, q: real)
    requires l0 <= l1 && t0 <= t1 && 0.0 <= p <= q <= 1.0
    ensures l0 <= PointAt(l0, t0, l1, t1, p).load <= PointAt(l0, t0, l1, t1, q).load <= l1
    ensures t0 <= PointAt(l0, t0, l1, t1, p).latency <= PointAt(l0, t0, l1, t1, q).latency <= t1
  {
    LerpRises(t0, t1, p, q);
    LerpTruncRises(l0, l1, p, q);
  }

  lemma LerpTruncRises(l0: int, l1: int, p: real, q: real)
    requires l0 <= l1 && 0.0 <= p <= q <= 1.0
    ensures l0 <= Trunc(Lerp(l0 as real, l1 as real, p)) <= Trunc(Lerp(l0 as real, l1 as real, q)) <= l1
  {
    var x, y := Lerp(l0 as real, l1 as real, p), Lerp(l0 as real, l1 as real, q);
    LerpRises(l0 as real, l1 as real, p, q);
    TruncMonotone(l0 as real, x);
    TruncMonotone(x, y);
    TruncMonotone(y, l1 as real);
  }

  /** Lines 227-231: appends the first n points of a rising ramp. */
  method AppendRamp(prefix: seq<Point>, l0: int, t0: real, l1: int, t1: real, n: nat) returns (ps: seq<Point>)
    requires n > 0 && l0 <= l1 && t0 <= t1 && Rising(prefix)
    requires forall i :: 0 <= i < |prefix| ==> prefix[i].load <= l0 && prefix[i].latency <= t0
    ensures Rising(ps) && ps == prefix + RampPoints(l0, t0, l1, t1, n)
    ensures forall i :: 0 <= i < |ps| ==> ps[i].load <= l1 && ps[i].latency <= t1
    ensures forall i :: |prefix| <= i < |ps| ==> l0 <= ps[i].load && t0 <= ps[i].latency
  {
    ps := prefix;
    for i := 0 to n
      invariant Rising(ps) && |ps| == |prefix| + i && prefix <= ps
      invariant forall k :: 0 <= k < i ==> ps[|prefix| + k] == Ramp(l0, t0, l1, t1, k, n)
      invariant forall k :: 0 <= k < |ps| ==> ps[k].load <= l1 && ps[k].latency <= t1
      invariant forall k :: |prefix| <= k < |ps| ==> l0 <= ps[k].load && t0 <= ps[k].latency
    {
      RampRises(l0, t0, l1, t1, i, i, n);
      if i > 0 {
        RampRises(l0, t0, l1, t1, i - 1, i, n);
        assert ps[|ps| - 1] == ps[|prefix| + (i - 1)];
      }
      RisingAppend(ps, Ramp(l0, t0, l1, t1, i, n));
      ps := ps + [Ramp(l0, t0, l1, t1, i, n)];
    }
  }

  /** Lines 186-195 and 218-221. */
  method TakeBelow(points: seq<Point>, sat: int) returns (below: seq<Point>)
    ensures below == points[..FirstAbove(points, sat, 0)]
  {
    var i := 0;
    while i < |points| && points[i].latency <= sat as real
      invariant 0 <= i <= |points| && FirstAbove(points, sat, 0) == FirstAbove(points, sat, i)
    {
      i := i + 1;
    }
    below := points[..i];
  }

  method TakeBefore(points: seq<Point>, start: int) returns (prefix: seq<Point>)
    ensures prefix == points[..FirstReaching(points, start, 0)]
  {
    var i := 0;
    while i < |points| && points[i].load < start
      invariant 0 <= i <= |points| && FirstReaching(points, start, 0) == FirstReaching(points, start, i)
    {
      i := i + 1;
    }
    prefix := points[..i];
  }

  lemma PrefixRises(ps: seq<Point>, n: nat)
    requires Rising(ps) && n <= |ps|
    ensures Rising(ps[..n])
    ensures forall i :: 0 <= i < n ==> ps[i].load <= ps[|ps| - 1].load && ps[i].latency <= ps[|ps| - 1].latency
  {
  }

  /** Lines 209-214 and 227-232: what replaces the part of the curve from the start load on. */
  function RampTail(last: Point, sat: int, ratio: real, n: int): seq<Point> {
    var start := StartLoad(last.load, ratio);
    var startLat := if last.latency > sat as real * 0.70 then last.latency else sat as real * 0.70;
    (if n <= 0 || last.load <= start then [] else RampPoints(start, startLat, last.load, sat as real, n))
    + [Point(last.load, sat as real)]
  }

  /** Lines 183-234.  The result rises and ends at or above saturation; a profile above saturation
      keeps its first point, any other its points up to saturation or up to a ramp towards it. */
  method DampenProfile(points: seq<Point>, sat: int, ratio: real, n: int, ghost floor: real) returns (ps: seq<Point>)
    requires Rising(points) && sat >= 0
    ensures Rising(ps) && (ps == [] <==> points == [])
    ensures ps != [] ==> ps[|ps| - 1].latency >= sat as real
    ensures AtLeast(points, 0, floor) && floor <= 0.0 <= ratio ==> AtLeast(ps, 0, floor)
    ensures points != [] && points[0].latency > sat as real ==> ps == [points[0]]
    ensures points != [] && points[0].latency <= sat as real ==>
      var below := points[..FirstAbove(points, sat, 0)];
      var last := below[|below| - 1];
      if ratio == 1.0 || n == 0
      then ps == if last.latency < sat as real then below + [Point(last.load, sat as real)] else below
      else ps == below[..FirstReaching(below, StartLoad(last.load, ratio), 0)] + RampTail(last, sat, ratio, n)
  {
    if points == [] {
      return [];
    }
    var below := TakeBelow(points, sat);
    PrefixRises(points, |below|);
    if below == [] {
      return [points[0]];
    }
    if ratio == 1.0 || n == 0 {
      ps := CloseAtSaturation(below, sat, floor);
    } else {
      ps := RampToSaturation(below, sat, ratio, n);
      if AtLeast(points, 0, floor) && floor <= 0.0 <= ratio {
        RampTailAtLeast(below[|below| - 1], sat, ratio, n);
      }
    }
  }

  lemma RampTailAtLeast(last: Point, sat: int, ratio: real, n: int)
    requires last.load >= 0 && last.latency <= sat as real && sat >= 0 && ratio >= 0.0
    ensures AtLeast(RampTail(last, sat, ratio, n), 0, 0.0)
  {
    var start := StartLoad(last.load, ratio);
    var startLat := if last.latency > sat as real * 0.70 then last.latency else sat as real * 0.70;
    if n > 0 && last.load > start {
      var ramp := RampPoints(start, startLat, last.load, sat as real, n);
      forall i | 0 <= i < |ramp| ensures ramp[i].load >= 0 && ramp[i].latency >= 0.0 {
        RampRises(start, startLat, last.load, sat as real, i, i, n);
      }
    }
  }

  /** Lines 203-207. */
  method CloseAtSaturation(below: seq<Point>, sat: int, ghost floor: real) returns (ps: seq<Point>)
    requires below != [] && Rising(below)
    ensures Rising(ps) && ps != [] && ps[|ps| - 1].latency >= sat as real
    ensures
      var last := below[|below| - 1];
      ps == if last.latency < sat as real then below + [Point(last.load, sat as real)] else below
    ensures AtLeast(below, 0, floor) ==> AtLeast(ps, 0, floor)
  {
    var last := below[|below| - 1];
    ps := below;
    if last.latency < sat as real {
      RisingAppend(below, Point(last.load, sat as real));
      ps := below + [Point(last.load, sat as real)];
    }
  }

  function StartLoad(maxLoad: int, ratio: real): (r: int)
    ensures maxLoad >= 0 && ratio >= 0.0 ==> r >= 0
  {
    if maxLoad >= 0 && ratio >= 0.0 then
      MulOrder(maxLoad as real, 0.0, ratio);
      Trunc(maxLoad as real * ratio)
    else Trunc(maxLoad as real * ratio)
  }

  /** Lines 209-234. */
  method RampToSaturation(below: seq<Point>, sat: int, ratio: real, n: int) returns (ps: seq<Point>)
    requires below != [] && Rising(below) && sat >= 0 && below[|below| - 1].latency <= sat as real
    ensures Rising(ps)
    ensures
      var last := below[|below| - 1];
      ps == below[..FirstReaching(below, StartLoad(last.load, ratio), 0)] + RampTail(last, sat, ratio, n)
  {
    var last, endLat := below[|below| - 1], sat as real;
    var startLoad := StartLoad(last.load, ratio);
    var startLat := if last.latency > endLat * 0.70 then last.latency else endLat * 0.70;
    var prefix := TakeBefore(below, startLoad);
    PrefixRises(below, |prefix|);
    if n <= 0 || last.load <= startLoad {
      ps := prefix;
    } else {
      ps := AppendRamp(prefix, startLoad, startLat, last.load, endLat, n);
    }
    RisingAppend(ps, Point(last.load, endLat));
    ps := ps + [Point(last.load, endLat)];
  }

  // ---------------------------------------------------------------- tail

  function TailLoad(points: seq<Point>, loadMul: real): int
    requires points != []
  {
    Trunc(points[|points| - 1].load as real * loadMul)
  }

  function TailLatency(points: seq<Point>, sat: int, latMul: real): real
    requires points != []
  {
    var last := points[|points| - 1].latency;
    var start := if last > sat as real then last else sat as real;
    if sat as real * latMul < start then start else sat as real * latMul
  }

  /** The guards of lines 252-262. */
  predicate Extends(points: seq<Point>, loadMul: real, n: int) {
    points != [] && n > 0 && loadMul > 1.0 && TailLoad(points, loadMul) > points[|points| - 1].load
  }

  /** ps extends points by loads that rise strictly beyond the last one. */
  ghost predicate Extended(points: seq<Point>, ps: seq<Point>) {
    && Rising(ps) && points <= ps
    && (|ps| > |points| ==> points != [])
    && (forall i :: |points| <= i < |ps| ==> points[|points| - 1].load < ps[i].load)
    && (forall i, j :: |points| <= i < j < |ps| ==> ps[i].load < ps[j].load)
  }

  lemma ExtendedPush(points: seq<Point>, ps: seq<Point>, p: Point)
    requires points != [] && Extended(points, ps) && points[|points| - 1].load < p.load
    requires ps[|ps| - 1].latency <= p.latency && (|ps| > |points| ==> ps[|ps| - 1].load < p.load)
    ensures Extended(points, ps + [p])
  {
    LastIsLargest(ps, |points|);
    RisingAppend(ps, p);
  }

  /** Lines 252-283: a synthetic tail beyond the last load, with strictly increasing loads; it is
      added exactly when the guards allow it and then reaches the target load and latency. */
  method ExtendProfileTail(points: seq<Point>, sat: int, loadMul: real, n: int, latMul: real) returns (ps: seq<Point>)
    requires Rising(points)
    ensures Extended(points, ps)
    ensures !Extends(points, loadMul, n) ==> ps == points
    ensures Extends(points, loadMul, n) ==>
      ps[|ps| - 1].load >= TailLoad(points, loadMul) && ps[|ps| - 1].latency == TailLatency(points, sat, latMul)
  {
    if points == [] || n <= 0 || loadMul <= 1.0 {
      return points;
    }
    var last := points[|points| - 1];
    var target := TailLoad(points, loadMul);
    if target <= last.load {
      return points;
    }
    var startLat := if last.latency > sat as real then last.latency else sat as real;
    var endLat := TailLatency(points, sat, latMul);
    ps := AppendTail(points, startLat, target, endLat, n);
  }

  /** Lines 269-283. */
  method AppendTail(points: seq<Point>, startLat: real, target: int, endLat: real, n: nat) returns (ps: seq<Point>)
    requires points != [] && Rising(points) && n > 0
    requires points[|points| - 1].load < target && points[|points| - 1].latency <= startLat <= endLat
    ensures Extended(points, ps) && ps[|ps| - 1].load >= target && ps[|ps| - 1].latency == endLat
  {
    var last := points[|points| - 1];
    ps := points;
    for i := 1 to n + 1
      invariant Extended(points, ps)
      invariant ps[|ps| - 1].latency <= Ramp(last.load, startLat, target, endLat, i - 1, n).latency
      invariant Ramp(last.load, startLat, target, endLat, i - 1, n).load > last.load ==>
        ReachesRamp(ps[|ps| - 1], Ramp(last.load, startLat, target, endLat, i - 1, n))
    {
      var p := Ramp(last.load, startLat, target, endLat, i, n);
      RampRises(last.load, startLat, target, endLat, i - 1, i, n);
      if p.load > last.load {
        var load := if |ps| > |points| && p.load <= ps[|ps| - 1].load then ps[|ps| - 1].load + 1 else p.load;
        ExtendedPush(points, ps, Point(load, p.latency));
        ps := ps + [Point(load, p.latency)];
      }
    }
    RampEnds(last.load, startLat, target, endLat, n);
  }

  lemma ExtendedAtLeast(points: seq<Point>, ps: seq<Point>, floor: real)
    requires Extended(points, ps) && AtLeast(points, 0, floor)
    ensures AtLeast(ps, 0, floor)
  {
    forall i | 0 <= i < |ps| ensures 0 <= ps[i].load && floor <= ps[i].latency {
      if i >= |points| {
        assert ps[|points| - 1] == points[|points| - 1];
      }
    }
  }

  ghost predicate ReachesRamp(p: Point, q: Point) {
    p.load >= q.load && p.latency == q.latency
  }

  lemma LastIsLargest(ps: seq<Point>, from: nat)
    requires Rising(ps) && from <= |ps|
    ensures forall k :: from <= k < |ps| ==> ps[k].load <= ps[|ps| - 1].load
  {
  }

  // ---------------------------------------------------------------- the whole pipeline

  /** What the loader can read into unsigned integers: latencies above -1 are truncated to 0. */
  ghost predicate Loadable(ps: seq<Point>) {
    forall i :: 0 <= i < |ps| ==> ps[i].load >= 0 && ps[i].latency > -1.0
  }

  /** LoadModel: loads as they are, latencies truncated to integers. */
  function ToCurve(ps: seq<Point>): Curve
    requires Loadable(ps)
  {
    Curve(seq(|ps|, i requires 0 <= i < |ps| => ps[i].load), seq(|ps|, i requires 0 <= i < |ps| => Trunc(ps[i].latency)))
  }

  /** A rising list of points is a curve the disk model accepts. */
  lemma RisingIsValidCurve(ps: seq<Point>)
    requires ps != [] && Rising(ps) && Loadable(ps)
    ensures ValidCurve(ToCurve(ps))
  {
    var c := ToCurve(ps);
    forall i, j | 0 <= i <= j < |ps| ensures c.load[i] <= c.load[j] && c.latency[i] <= c.latency[j] {
      TruncMonotone(ps[i].latency, ps[j].latency);
    }
  }

  /** No usable row has load -1 after truncation, or latency -1; what lies below the filter drops itself. */
  ghost predicate RowsLoadable(rows: seq<Row>) {
    forall i :: 0 <= i < |rows| && Usable(rows[i]) ==> Trunc(rows[i].load.value) != -1 && rows[i].latency.v != -1.0
  }

  lemma {:induction false} PointsLoadable(rows: seq<Row>, load: int, latency: real)
    requires RowsLoadable(rows) && load >= -1 && latency >= -1.0
    ensures Loadable(PointsFrom(rows, load, latency))
  {
    if rows != [] {
      match NextPoint(rows[0], load, latency)
      case None => PointsLoadable(rows[1..], load, latency);
      case Some(p) => PointsLoadable(rows[1..], p.load, p.latency);
    }
  }

  /** The points the script writes, for any profile at all. */
  method GenerateProfile(rows: seq<Row>, sat: int, ratio: real, n: int, extend: bool, loadMul: real, tailPoints: int, latMul: real,
                         ghost floor: real)
    returns (ps: seq<Point>)
    requires sat >= 0
    ensures Rising(ps) && (ps == [] <==> PointsFrom(rows, -1, -1.0) == [])
    ensures ps != [] ==> ps[|ps| - 1].latency >= sat as real
    ensures AtLeast(PointsFrom(rows, -1, -1.0), 0, floor) && floor <= 0.0 <= ratio ==> AtLeast(ps, 0, floor)
  {
    var points := IterMonotonicProfilePoints(rows);
    ps := DampenProfile(points, sat, ratio, n, floor);
    if extend {
      ghost var damped := ps;
      ps := ExtendProfileTail(ps, sat, loadMul, tailPoints, latMul);
      if AtLeast(damped, 0, floor) {
        ExtendedAtLeast(damped, ps, floor);
      }
      assert damped != [] ==> ps[|damped| - 1] == damped[|damped| - 1];
    }
  }

  /** Rising points that can be loaded have a lowest latency above -1. */
  lemma LowestLatency(ps: seq<Point>) returns (floor: real)
    requires Rising(ps) && Loadable(ps)
    ensures -1.0 < floor <= 0.0 && AtLeast(ps, 0, floor)
  {
    floor := if ps == [] || ps[0].latency > 0.0 then 0.0 else ps[0].latency;
  }

  /** The curve the scheduler loads from them; None when no row is usable. */
  method GenerateModel(rows: seq<Row>, sat: int, ratio: real, n: int, extend: bool, loadMul: real, tailPoints: int, latMul: real)
    returns (curve: Option<Curve>)
    requires RowsLoadable(rows) && sat >= 0 && ratio >= 0.0
    ensures curve.Some? <==> PointsFrom(rows, -1, -1.0) != []
    ensures curve.Some? ==> ValidCurve(curve.value) && curve.value.latency[|curve.value.latency| - 1] >= sat
  {
    PointsLoadable(rows, -1, -1.0);
    PointsRise(rows, -1, -1.0);
    ghost var floor := LowestLatency(PointsFrom(rows, -1, -1.0));
    var ps := GenerateProfile(rows, sat, ratio, n, extend, loadMul, tailPoints, latMul, floor);
    if ps == [] {
      return None;
    }
    RisingIsValidCurve(ps);
    TruncMonotone(sat as real, ps[|ps| - 1].latency);
    return Some(ToCurve(ps));
  }
}
