/**
 * The sampled race track: a closed polyline built from straight and curved
 * segments, with a heading and a cumulative arc length (in metres) per sample,
 * and the lookups along it (position and pose at an arc position, nearest
 * sample to a point). Positions are in pixels, arc lengths in metres.
 */
module Tracks {
  import opened JsMath

  datatype Direction = Left | Right

  datatype Segment =
    | Straight(lengthPx: real)
    | Curve(radiusPx: real, angleDeg: real, dir: Direction)

  datatype StartPose = StartPose(x: real, y: real, headingDeg: real)

  datatype TrackData = TrackData(
    name: string,
    segments: seq<Segment>,
    start: StartPose,
    laneWidthPx: Option<real>)

  datatype Vec2 = Vec2(x: real, y: real)

  datatype Pose = Pose(x: real, y: real, headingRad: real)

  /** Sampling step along the centre line, in pixels. */
  const StepPx: real := 2.0

  /** Lane width used when the track description gives none. */
  const DefaultLaneWidthPx: real := 40.0

  function Deg2Rad(d: real, pi: real): real {
    d * pi / 180.0
  }

  /** `1` for a left-hand curve, `-1` for a right-hand one. */
  function DirSign(dir: Direction): real {
    if dir == Left then 1.0 else -1.0
  }

  /**
   * The number of samples a segment emits: `max(1, floor(length / 2))` for a
   * straight and `max(1, ceil(|radius * angle| / 2))` for a curve.
   */
  function SegmentSteps(seg: Segment, pi: real): (n: int)
    ensures n >= 1
  {
    match seg
    case Straight(len) =>
      var f := (len / StepPx).Floor;
      if f >= 1 then f else 1
    case Curve(r, angleDeg, _) =>
      var c := Ceil(Abs(r * Deg2Rad(angleDeg, pi)) / StepPx);
      if c >= 1 then c else 1
  }

  /**
   * A straight emits one sample per whole step of its length, and at least
   * one; a curve emits the least number of samples that keeps each at most
   * one step long, and at least one.
   */
  lemma SegmentStepsCount(seg: Segment, pi: real)
    ensures seg.Straight? && seg.lengthPx >= StepPx ==>
      SegmentSteps(seg, pi) == (seg.lengthPx / StepPx).Floor
    ensures seg.Straight? && seg.lengthPx < StepPx ==> SegmentSteps(seg, pi) == 1
    ensures seg.Curve? ==>
      var arc := Abs(seg.radiusPx * Deg2Rad(seg.angleDeg, pi));
      arc <= StepPx * (SegmentSteps(seg, pi) as real)
      && (SegmentSteps(seg, pi) == 1 || StepPx * ((SegmentSteps(seg, pi) - 1) as real) < arc)
  {
  }

  /** The number of samples a list of segments emits, before the closing sample. */
  function TotalSteps(segs: seq<Segment>, pi: real): nat {
    if segs == [] then 0
    else TotalSteps(segs[..|segs| - 1], pi) + SegmentSteps(segs[|segs| - 1], pi)
  }

  /** Every segment contributes at least one sample. */
  lemma {:induction false} TotalStepsAtLeastSegments(segs: seq<Segment>, pi: real)
    ensures TotalSteps(segs, pi) >= |segs|
  {
    if segs != [] {
      TotalStepsAtLeastSegments(segs[..|segs| - 1], pi);
    }
  }

  /** A segment with a positive length: a straight of positive length or a turning curve of positive radius. */
  predicate ProperSegment(seg: Segment) {
    match seg
    case Straight(len) => len > 0.0
    case Curve(r, angleDeg, _) => r > 0.0 && angleDeg != 0.0
  }

  /** A track description whose samples all advance the arc length. */
  predicate ProperInput(data: TrackData, mpp: real) {
    && mpp > 0.0
    && |data.segments| > 0
    && forall i :: 0 <= i < |data.segments| ==> ProperSegment(data.segments[i])
  }

  predicate Sorted(a: seq<real>) {
    forall i, j :: 0 <= i <= j < |a| ==> a[i] <= a[j]
  }

  predicate StrictlyIncreasing(a: seq<real>) {
    forall i, j :: 0 <= i < j < |a| ==> a[i] < a[j]
  }

  lemma IncreasingIsSorted(a: seq<real>)
    requires StrictlyIncreasing(a)
    ensures Sorted(a)
  {
  }

  lemma AppendIncreasing(a: seq<real>, v: real)
    requires StrictlyIncreasing(a)
    requires |a| > 0 ==> a[|a| - 1] < v
    ensures StrictlyIncreasing(a + [v])
  {
    forall i, j | 0 <= i < j < |a| + 1
      ensures (a + [v])[i] < (a + [v])[j]
    {
      if j == |a| && i < |a| - 1 {
        assert a[i] < a[|a| - 1];
      }
    }
  }

  /** The arc length a straight sample adds is positive. */
  lemma StraightStepPositive(math: Maths, h: real, len: real, n: real, mpp: real)
    requires math.Valid() && len > 0.0 && n > 0.0 && mpp > 0.0
    ensures math.hypot(math.cos(h) * (len / n), math.sin(h) * (len / n)) * mpp > 0.0
  {
    var q := len / n;
    PositiveProduct(len, 1.0 / n);
    assert q > 0.0;
    if math.cos(h) != 0.0 {
      NonZeroProduct(math.cos(h), q);
    } else {
      NonZeroProduct(math.sin(h), q);
    }
    PositiveProduct(math.hypot(math.cos(h) * q, math.sin(h) * q), mpp);
  }

  /** The arc length a curve sample adds is positive. */
  lemma CurveStepPositive(dtheta: real, r: real, mpp: real)
    requires dtheta != 0.0 && r > 0.0 && mpp > 0.0
    ensures Abs(dtheta) * r * mpp > 0.0
  {
    PositiveProduct(Abs(dtheta), r);
    PositiveProduct(Abs(dtheta) * r, mpp);
  }

  /** The sample state carried from one segment to the next. */
  datatype Builder = Builder(
    x: real, y: real, heading: real, sMeters: real,
    pts: seq<Vec2>, heads: seq<real>, cum: seq<real>)
  {
    predicate Aligned() {
      && |pts| == |heads| == |cum|
      && (|cum| > 0 ==> cum[|cum| - 1] == sMeters)
      && (|cum| == 0 ==> sMeters == 0.0)
    }

    /** The arc lengths so far increase strictly from a positive first one. */
    predicate Advancing() {
      && StrictlyIncreasing(cum)
      && (|cum| > 0 ==> 0.0 < cum[0])
      && 0.0 <= sMeters
    }
  }

  /** `x0` advanced `n` times by `d`, as the sampling loops accumulate it. */
  function Advance(x0: real, d: real, n: nat): real {
    if n == 0 then x0 else Advance(x0, d, n - 1) + d
  }

  lemma {:induction false} AdvanceClosed(x0: real, d: real, n: nat)
    ensures Advance(x0, d, n) == x0 + d * (n as real)
  {
    if n > 0 {
      AdvanceClosed(x0, d, n - 1);
      Distribute(d, (n - 1) as real);
    }
  }

  /** `n` equal parts of `c * len` add up to `c * len`: a straight ends `len` along its heading. */
  lemma StraightEnd(x: real, x0: real, c: real, len: real, n: nat, d: real)
    requires n > 0 && d == c * (len / n as real) && x == Advance(x0, d, n)
    ensures x == x0 + c * len
  {
    AdvanceClosed(x0, d, n);
    CancelParts(c, len, n as real);
  }

  /** `n` equal turns of `angle / n` add up to the curve's signed angle. */
  lemma CurveTurn(h: real, h0: real, angle: real, sign: real, n: nat, d: real)
    requires n > 0 && d == (angle / n as real) * sign && h == Advance(h0, d, n)
    ensures h == h0 + sign * angle
  {
    AdvanceClosed(h0, d, n);
    CancelParts(sign, angle, n as real);
  }

  /** Pushes one sample at `(x, y)` with heading `h`, `inc` metres further along. */
  function Push(b: Builder, x: real, y: real, h: real, inc: real): (b': Builder)
    ensures b.Aligned() ==> b'.Aligned()
    ensures |b'.cum| == |b.cum| + 1 && b'.sMeters == b.sMeters + inc
    ensures b'.x == x && b'.y == y && b'.heading == h
    ensures b.Aligned() && b.Advancing() && inc > 0.0 ==> b'.Advancing()
  {
    if b.Aligned() && b.Advancing() && inc > 0.0 then
      AppendIncreasing(b.cum, b.sMeters + inc);
      Builder(x, y, h, b.sMeters + inc, b.pts + [Vec2(x, y)], b.heads + [h], b.cum + [b.sMeters + inc])
    else
      Builder(x, y, h, b.sMeters + inc, b.pts + [Vec2(x, y)], b.heads + [h], b.cum + [b.sMeters + inc])
  }

  /** The builder after `n` samples of a straight: each moves by `(dx, dy)` and adds `inc` metres. */
  function StraightRun(b: Builder, dx: real, dy: real, h: real, inc: real, n: nat): Builder {
    if n == 0 then b
    else
      var p := StraightRun(b, dx, dy, h, inc, n - 1);
      Push(p, p.x + dx, p.y + dy, h, inc)
  }

  lemma {:induction false} StraightRunFacts(b: Builder, dx: real, dy: real, h: real, inc: real, n: nat)
    requires b.Aligned()
    ensures var e := StraightRun(b, dx, dy, h, inc, n);
      && e.Aligned() && |e.cum| == |b.cum| + n
      && e.heading == (if n == 0 then b.heading else h)
      && e.x == Advance(b.x, dx, n) && e.y == Advance(b.y, dy, n)
      && (b.Advancing() && inc > 0.0 ==> e.Advancing())
      && (inc > 0.0 && n > 0 ==> b.sMeters < e.sMeters)
      && (inc > 0.0 ==> b.sMeters <= e.sMeters)
  {
    if n > 0 {
      StraightRunFacts(b, dx, dy, h, inc, n - 1);
    }
  }

  /**
   * The builder after `n` samples of a curve about `(cx, cy)`: each turns the
   * heading by `dtheta`, lies at radius `r` from the centre and adds `inc` metres.
   */
  function CurveRun(b: Builder, math: Maths, cx: real, cy: real, r: real, sign: real, dtheta: real, inc: real, n: nat): Builder {
    if n == 0 then b
    else
      CurveStep(CurveRun(b, math, cx, cy, r, sign, dtheta, inc, n - 1), math, cx, cy, r, sign, dtheta, inc)
  }

  /** One sample of a curve: turn by `dtheta` and place the point on the arc around `(cx, cy)`. */
  function CurveStep(p: Builder, math: Maths, cx: real, cy: real, r: real, sign: real, dtheta: real, inc: real): Builder {
    var h := p.heading + dtheta;
    Push(p, cx + math.sin(h) * sign * r, cy - math.cos(h) * sign * r, h, inc)
  }

  lemma {:induction false} CurveRunFacts(b: Builder, math: Maths, cx: real, cy: real, r: real, sign: real, dtheta: real, inc: real, n: nat)
    requires b.Aligned()
    ensures var e := CurveRun(b, math, cx, cy, r, sign, dtheta, inc, n);
      && e.Aligned() && |e.cum| == |b.cum| + n
      && e.heading == Advance(b.heading, dtheta, n)
      && (b.Advancing() && inc > 0.0 ==> e.Advancing())
      && (inc > 0.0 && n > 0 ==> b.sMeters < e.sMeters)
      && (inc > 0.0 ==> b.sMeters <= e.sMeters)
  {
    if n > 0 {
      CurveRunFacts(b, math, cx, cy, r, sign, dtheta, inc, n - 1);
    }
  }

  /**
   * What the samples of a straight amount to: `steps` aligned samples along
   * the heading, ending `len` further along it, each advancing the arc length
   * when the straight has a positive length.
   */
  lemma StraightOutcome(b: Builder, e: Builder, len: real, mpp: real, math: Maths, steps: nat, dx: real, dy: real)
    requires b.Aligned() && steps >= 1
    requires dx == math.cos(b.heading) * (len / steps as real) && dy == math.sin(b.heading) * (len / steps as real)
    requires e == StraightRun(b, dx, dy, b.heading, math.hypot(dx, dy) * mpp, steps)
    ensures e.Aligned() && |e.cum| == |b.cum| + steps && e.heading == b.heading
    ensures e.x == b.x + math.cos(b.heading) * len && e.y == b.y + math.sin(b.heading) * len
    ensures b.Advancing() && len > 0.0 && mpp > 0.0 && math.Valid() ==> e.Advancing() && b.sMeters < e.sMeters
  {
    StraightRunFacts(b, dx, dy, b.heading, math.hypot(dx, dy) * mpp, steps);
    StraightEnd(e.x, b.x, math.cos(b.heading), len, steps, dx);
    StraightEnd(e.y, b.y, math.sin(b.heading), len, steps, dy);
    if b.Advancing() && len > 0.0 && mpp > 0.0 && math.Valid() {
      StraightStepPositive(math, b.heading, len, steps as real, mpp);
    }
  }

  /**
   * Emits the samples of one straight segment (Track.ts lines 46-56): the
   * heading is kept and the position advances by equal parts of the length.
   */
  method EmitStraight(b: Builder, len: real, mpp: real, math: Maths) returns (b': Builder)
    requires b.Aligned()
    ensures b'.Aligned()
    ensures |b'.cum| == |b.cum| + SegmentSteps(Straight(len), math.PI)
    ensures b'.heading == b.heading
    ensures b'.x == b.x + math.cos(b.heading) * len && b'.y == b.y + math.sin(b.heading) * len
    ensures b.Advancing() && len > 0.0 && mpp > 0.0 && math.Valid() ==> b'.Advancing() && b.sMeters < b'.sMeters
  {
    var steps := SegmentSteps(Straight(len), math.PI);
    var h := b.heading;
    var dx := math.cos(h) * (len / steps as real);
    var dy := math.sin(h) * (len / steps as real);
    b' := b;
    for i := 0 to steps
      invariant b' == StraightRun(b, dx, dy, h, math.hypot(dx, dy) * mpp, i)
    {
      b' := Push(b', b'.x + dx, b'.y + dy, h, math.hypot(dx, dy) * mpp);
    }
    StraightOutcome(b, b', len, mpp, math, steps, dx, dy);
  }

  /**
   * What the samples of a curve amount to: `steps` aligned samples turning
   * the heading by exactly the curve's signed angle, each advancing the arc
   * length when the curve has a positive radius and a non-zero angle.
   */
  lemma CurveOutcome(b: Builder, e: Builder, r: real, angleDeg: real, dir: Direction, mpp: real, math: Maths,
                     steps: nat, cx: real, cy: real, dtheta: real)
    requires b.Aligned() && steps >= 1
    requires dtheta == (Deg2Rad(angleDeg, math.PI) / steps as real) * DirSign(dir)
    requires e == CurveRun(b, math, cx, cy, r, DirSign(dir), dtheta, Abs(dtheta) * r * mpp, steps)
    ensures e.Aligned() && |e.cum| == |b.cum| + steps
    ensures e.heading == b.heading + DirSign(dir) * Deg2Rad(angleDeg, math.PI)
    ensures b.Advancing() && r > 0.0 && angleDeg != 0.0 && mpp > 0.0 && math.Valid() ==>
      e.Advancing() && b.sMeters < e.sMeters
  {
    CurveRunFacts(b, math, cx, cy, r, DirSign(dir), dtheta, Abs(dtheta) * r * mpp, steps);
    CurveTurn(e.heading, b.heading, Deg2Rad(angleDeg, math.PI), DirSign(dir), steps, dtheta);
    if b.Advancing() && r > 0.0 && angleDeg != 0.0 && mpp > 0.0 && math.Valid() {
      CurveStepNonZero(angleDeg, math.PI, steps, DirSign(dir));
      CurveStepPositive(dtheta, r, mpp);
    }
  }

  /**
   * Emits the samples of one curve segment (Track.ts lines 57-75): each sample
   * turns the heading by the same angle and lies at the radius from the arc's
   * centre; the whole curve turns the heading by exactly its signed angle.
   */
  method EmitCurve(b: Builder, r: real, angleDeg: real, dir: Direction, mpp: real, math: Maths)
    returns (b': Builder)
    requires b.Aligned()
    ensures b'.Aligned()
    ensures |b'.cum| == |b.cum| + SegmentSteps(Curve(r, angleDeg, dir), math.PI)
    ensures b'.heading == b.heading + DirSign(dir) * Deg2Rad(angleDeg, math.PI)
    ensures b.Advancing() && r > 0.0 && angleDeg != 0.0 && mpp > 0.0 && math.Valid() ==>
      b'.Advancing() && b.sMeters < b'.sMeters
  {
    var angle := Deg2Rad(angleDeg, math.PI);
    var dirSign := DirSign(dir);
    var cx := b.x - math.sin(b.heading) * dirSign * r;
    var cy := b.y + math.cos(b.heading) * dirSign * r;
    var steps := SegmentSteps(Curve(r, angleDeg, dir), math.PI);
    var dtheta := (angle / steps as real) * dirSign;
    b' := b;
    for i := 0 to steps
      invariant b' == CurveRun(b, math, cx, cy, r, dirSign, dtheta, Abs(dtheta) * r * mpp, i)
    {
      b' := CurveStep(b', math, cx, cy, r, dirSign, dtheta, Abs(dtheta) * r * mpp);
    }
    CurveOutcome(b, b', r, angleDeg, dir, mpp, math, steps, cx, cy, dtheta);
  }

  /** A turning curve turns by a non-zero angle at every sample. */
  lemma CurveStepNonZero(angleDeg: real, pi: real, steps: int, sign: real)
    requires angleDeg != 0.0 && pi > 0.0 && steps >= 1 && sign != 0.0
    ensures (Deg2Rad(angleDeg, pi) / steps as real) * sign != 0.0
  {
    NonZeroProduct(angleDeg, pi);
    NonZeroProduct(Deg2Rad(angleDeg, pi), 1.0 / steps as real);
    NonZeroProduct(Deg2Rad(angleDeg, pi) / steps as real, sign);
  }

  /**
   * The sampling of the constructor (Track.ts lines 33-86): one sample per step
   * of every segment, then a closing sample back at the start pose whose arc
   * length is one step beyond the total.
   */
  method BuildSamples(data: TrackData, mpp: real, math: Maths)
    returns (pts: seq<Vec2>, heads: seq<real>, cum: seq<real>, total: real)
    ensures |pts| == |heads| == |cum| == TotalSteps(data.segments, math.PI) + 1
    ensures pts[|pts| - 1] == Vec2(data.start.x, data.start.y)
    ensures heads[|heads| - 1] == Deg2Rad(data.start.headingDeg, math.PI)
    ensures cum[|cum| - 1] == total + mpp * StepPx
    ensures data.segments == [] ==> total == 0.0
    ensures data.segments != [] ==> |cum| >= 2 && cum[|cum| - 2] == total
    ensures ProperInput(data, mpp) && math.Valid() ==>
      StrictlyIncreasing(cum) && 0.0 < cum[0] && 0.0 < total
  {
    var b := Builder(data.start.x, data.start.y, Deg2Rad(data.start.headingDeg, math.PI), 0.0, [], [], []);
    ghost var proper := ProperInput(data, mpp) && math.Valid();
    var j := 0;
    while j < |data.segments|
      invariant 0 <= j <= |data.segments|
      invariant b.Aligned()
      invariant |b.cum| == TotalSteps(data.segments[..j], math.PI)
      invariant proper ==> b.Advancing()
      invariant proper && j > 0 ==> 0.0 < b.sMeters
    {
      var seg := data.segments[j];
      assert data.segments[..j + 1][..j] == data.segments[..j];
      if seg.Straight? {
        b := EmitStraight(b, seg.lengthPx, mpp, math);
      } else {
        b := EmitCurve(b, seg.radiusPx, seg.angleDeg, seg.dir, mpp, math);
      }
      j := j + 1;
    }
    assert data.segments[..j] == data.segments;
    TotalStepsAtLeastSegments(data.segments, math.PI);
    total := b.sMeters;
    if proper {
      PositiveProduct(mpp, StepPx);
      AppendIncreasing(b.cum, total + mpp * StepPx);
    }
    pts := b.pts + [Vec2(data.start.x, data.start.y)];
    heads := b.heads + [Deg2Rad(data.start.headingDeg, math.PI)];
    cum := b.cum + [total + mpp * StepPx];
  }

  /**
   * The index `findIndexForMeters` computes: the first sample whose arc length
   * is at least `s`, or the last sample when there is none.
   */
  function LowerBound(a: seq<real>, s: real): (k: nat)
    requires |a| > 0
    ensures k < |a|
    ensures forall j :: 0 <= j < k ==> a[j] < s
    ensures k == |a| - 1 || s <= a[k]
  {
    if |a| == 1 || s <= a[0] then 0 else 1 + LowerBound(a[1..], s)
  }

  /** The characterisation in `LowerBound`'s contract determines the index. */
  lemma {:induction false} LowerBoundUnique(a: seq<real>, s: real, k: nat)
    requires k < |a|
    requires forall j :: 0 <= j < k ==> a[j] < s
    requires k == |a| - 1 || s <= a[k]
    ensures k == LowerBound(a, s)
  {
    if |a| > 1 && !(s <= a[0]) {
      assert k > 0;
      assert forall j :: 0 <= j < k - 1 ==> a[1..][j] == a[j + 1];
      LowerBoundUnique(a[1..], s, k - 1);
    }
  }

  /** On strictly increasing samples the search for a sample's own arc length finds that sample. */
  lemma LowerBoundAtSample(a: seq<real>, k: nat)
    requires StrictlyIncreasing(a) && k < |a|
    ensures LowerBound(a, a[k]) == k
  {
    LowerBoundUnique(a, a[k], k);
  }

  /** Squared distance from a sample to the point `(x, y)`. */
  function Dist2(p: Vec2, x: real, y: real): real {
    (p.x - x) * (p.x - x) + (p.y - y) * (p.y - y)
  }

  /** The first of the first `n` samples that no other of them is strictly closer to `(x, y)` than. */
  function NearestIndex(pts: seq<Vec2>, x: real, y: real, n: nat): (k: nat)
    requires 0 < n <= |pts|
    ensures k < n
    ensures forall j :: 0 <= j < n ==> Dist2(pts[k], x, y) <= Dist2(pts[j], x, y)
    ensures forall j :: 0 <= j < k ==> Dist2(pts[k], x, y) < Dist2(pts[j], x, y)
  {
    if n == 1 then 0
    else
      var k := NearestIndex(pts, x, y, n - 1);
      if Dist2(pts[n - 1], x, y) < Dist2(pts[k], x, y) then n - 1 else k
  }

  /**
   * `((b - a + PI) % (2 PI)) - PI`, moved up by a turn when below `-PI`: the
   * signed shortest turn from heading `a` to heading `b`.
   */
  function AngleDelta(a: real, b: real, pi: real): (d: real)
    requires pi > 0.0
    ensures -pi <= d < pi
    ensures Wrap(d, 2.0 * pi) == Wrap(b - a, 2.0 * pi)
  {
    var x := b - a + pi;
    var delta := Rem(x, 2.0 * pi) - pi;
    RemBounds(x, 2.0 * pi);
    RemCongruent(x, 2.0 * pi);
    WrapAddCongruent(Rem(x, 2.0 * pi), x, -pi, 2.0 * pi);
    assert x + -pi == b - a;
    if delta < -pi then
      WrapShift(delta, 2.0 * pi, 1);
      assert LapsAhead(delta, 2.0 * pi, 1) == delta + 2.0 * pi;
      delta + 2.0 * pi
    else
      delta
  }

  /** The truncated remainder differs from its operand by a whole number of periods. */
  lemma RemCongruent(x: real, n: real)
    requires n > 0.0
    ensures Wrap(Rem(x, n), n) == Wrap(x, n)
  {
    var t := Trunc(x / n);
    assert x == LapsAhead(Rem(x, n), n, t);
    WrapShift(Rem(x, n), n, t);
  }

  /** `angleLerp`: moves from heading `a` towards `b` by the fraction `t` of the shortest turn. */
  function AngleLerp(a: real, b: real, t: real, pi: real): real
    requires pi > 0.0
  {
    a + AngleDelta(a, b, pi) * t
  }

  /** At `t = 0` the interpolation is the first heading. */
  lemma AngleLerpStart(a: real, b: real, pi: real)
    requires pi > 0.0
    ensures AngleLerp(a, b, 0.0, pi) == a
  {
  }

  /** At `t = 1` the interpolation is the second heading up to whole turns. */
  lemma AngleLerpEnd(a: real, b: real, pi: real)
    requires pi > 0.0
    ensures Wrap(AngleLerp(a, b, 1.0, pi), 2.0 * pi) == Wrap(b, 2.0 * pi)
  {
    var d := AngleDelta(a, b, pi);
    WrapAddCongruent(d, b - a, a, 2.0 * pi);
    assert d + a == AngleLerp(a, b, 1.0, pi);
    assert b - a + a == b;
  }

  /** For a fraction in [0, 1] the interpolation never turns more than half a turn from `a`. */
  lemma AngleLerpShortest(a: real, b: real, t: real, pi: real)
    requires pi > 0.0 && 0.0 <= t <= 1.0
    ensures Abs(AngleLerp(a, b, t, pi) - a) <= pi
  {
    var d := AngleDelta(a, b, pi);
    assert AngleLerp(a, b, t, pi) - a == d * t;
    if d > 0.0 {
      ScaleAtMost(d, t, d * t, 1.0);
      ScaleAtLeast(d, t, d * t, 0.0);
    } else if d < 0.0 {
      ScaleAtMost(-d, t, -(d * t), 1.0);
      ScaleAtLeast(-d, t, -(d * t), 0.0);
    }
  }

  /**
   * `s1 > s0 ? (w - s0) / (s1 - s0) : 0`: how far `w` lies from `lo` towards
   * `hi`, as a share of the gap; inside the bracket it lies in [0, 1].
   */
  function Fraction(lo: real, hi: real, w: real): (t: real)
    ensures lo < hi ==> t * (hi - lo) == w - lo
    ensures lo < hi && lo <= w <= hi ==> 0.0 <= t <= 1.0
    ensures hi <= lo ==> t == 0.0
  {
    if hi > lo then
      var q := (w - lo) / (hi - lo);
      if lo <= w <= hi then
        ScaleAtMost(hi - lo, q, w - lo, 1.0);
        q
      else q
    else 0.0
  }

  /** At the upper bracket the fraction is exactly 1. */
  lemma FractionAtHi(lo: real, hi: real)
    requires lo < hi
    ensures Fraction(lo, hi, hi) == 1.0
  {
    var t := Fraction(lo, hi, hi);
    assert t * (hi - lo) == 1.0 * (hi - lo);
  }

  /** Interpolating by the whole fraction reaches the second point. */
  lemma LerpAtOne(p0: Vec2, p1: Vec2)
    ensures Lerp(p0, p1, 1.0) == p1
  {
  }

  /** Where an arc position falls: the two bracketing samples and the fraction between them. */
  datatype Location = Location(prev: nat, idx: nat, t: real)

  /** `p0 + (p1 - p0) * t`, coordinate by coordinate. */
  function Lerp(p0: Vec2, p1: Vec2, t: real): Vec2 {
    Vec2(p0.x + (p1.x - p0.x) * t, p0.y + (p1.y - p0.y) * t)
  }

  class Track {
    const data: TrackData
    const math: Maths
    const metersPerPixel: real
    const laneWidthPx: real
    const pointsPx: seq<Vec2>
    const headingsRad: seq<real>
    const cumulativeMeters: seq<real>
    const totalLengthMeters: real

    /** The three sample arrays are parallel and hold at least the closing sample. */
    predicate Shaped() {
      |pointsPx| == |headingsRad| == |cumulativeMeters| >= 1
    }

    /**
     * The arc lengths rise strictly from a positive first entry, and the
     * entry before the closing one is the total length.
     */
    predicate Indexed() {
      && Shaped()
      && |cumulativeMeters| >= 2
      && StrictlyIncreasing(cumulativeMeters)
      && 0.0 < cumulativeMeters[0]
      && 0.0 < totalLengthMeters
      && cumulativeMeters[|cumulativeMeters| - 2] == totalLengthMeters
    }

    /** A track built from a proper description. */
    ghost predicate Valid() {
      && Indexed()
      && math.Valid()
      && metersPerPixel > 0.0
      && cumulativeMeters[|cumulativeMeters| - 1] == totalLengthMeters + metersPerPixel * StepPx
    }

    constructor (data: TrackData, mpp: real, math: Maths)
      ensures this.data == data && this.math == math && metersPerPixel == mpp
      ensures laneWidthPx == data.laneWidthPx.GetOr(DefaultLaneWidthPx)
      ensures Shaped() && |pointsPx| == TotalSteps(data.segments, math.PI) + 1
      ensures pointsPx[|pointsPx| - 1] == Vec2(data.start.x, data.start.y)
      ensures ProperInput(data, mpp) && math.Valid() ==> Valid()
    {
      this.data := data;
      this.math := math;
      this.metersPerPixel := mpp;
      this.laneWidthPx := data.laneWidthPx.GetOr(DefaultLaneWidthPx);
      var pts, heads, cum, total := BuildSamples(data, mpp, math);
      this.pointsPx := pts;
      this.headingsRad := heads;
      this.cumulativeMeters := cum;
      this.totalLengthMeters := total;
    }

    /** `findIndexForMeters`: binary search for the lower bound of `s` in the arc lengths. */
    method FindIndexForMeters(s: real) returns (k: nat)
      requires Shaped()
      ensures k < |cumulativeMeters|
      ensures Sorted(cumulativeMeters) ==> k == LowerBound(cumulativeMeters, s)
    {
      var lo, hi := 0, |cumulativeMeters| - 1;
      while lo < hi
        invariant 0 <= lo <= hi < |cumulativeMeters|
        invariant Sorted(cumulativeMeters) ==> forall j :: 0 <= j < lo ==> cumulativeMeters[j] < s
        invariant hi == |cumulativeMeters| - 1 || s <= cumulativeMeters[hi]
        decreases hi - lo
      {
        var mid := (lo + hi) / 2;
        if cumulativeMeters[mid] < s {
          lo := mid + 1;
        } else {
          hi := mid;
        }
      }
      if Sorted(cumulativeMeters) {
        LowerBoundUnique(cumulativeMeters, s, lo);
      }
      k := lo;
    }

    /**
     * The search and fraction shared by `samplePx` and `samplePose`, on a
     * wrapped arc position. The wrapped position lies between the two bracketing arc lengths, so the
     * fraction lies in [0, 1]; it is 0 when both brackets are the first sample,
     * and the closing sample is never reached.
     */
    function Locate(w: real): (l: Location)
      requires Indexed() && 0.0 <= w < totalLengthMeters
      ensures l.idx < |cumulativeMeters| - 1
      ensures l.prev == if l.idx == 0 then 0 else l.idx - 1
      ensures 0.0 <= l.t <= 1.0
      ensures cumulativeMeters[l.prev] == cumulativeMeters[l.idx] ==> l.t == 0.0
      ensures l.idx == LowerBound(cumulativeMeters, w)
      ensures l.t == Fraction(cumulativeMeters[l.prev], cumulativeMeters[l.idx], w)
    {
      var idx := LowerBound(cumulativeMeters, w);
      var prev := if idx - 1 >= 0 then idx - 1 else 0;
      BracketBeforeClosing(w, idx);
      Location(prev, idx, Fraction(cumulativeMeters[prev], cumulativeMeters[idx], w))
    }

    /** A wrapped position is searched below the total, so it is bracketed before the closing sample. */
    lemma BracketBeforeClosing(w: real, idx: nat)
      requires Indexed() && 0.0 <= w < totalLengthMeters
      requires idx == LowerBound(cumulativeMeters, w)
      ensures idx < |cumulativeMeters| - 1 && w <= cumulativeMeters[idx]
      ensures idx > 0 ==> cumulativeMeters[idx - 1] < w
    {
    }

    /** `samplePx`: the position at arc position `s`, interpolated between the bracketing samples. */
    function SamplePx(s: real): Vec2
      requires Indexed()
    {
      var l := Locate(Wrap(s, totalLengthMeters));
      Lerp(pointsPx[l.prev], pointsPx[l.idx], l.t)
    }

    /**
     * `samplePose`: the same position as `samplePx`, with the heading
     * interpolated along the shorter turn between the bracketing headings.
     */
    function SamplePose(s: real): (p: Pose)
      requires Valid()
      ensures Vec2(p.x, p.y) == SamplePx(s)
      ensures var l := Locate(Wrap(s, totalLengthMeters));
        && Abs(p.headingRad - headingsRad[l.prev]) <= math.PI
        && (l.t == 0.0 ==> p.headingRad == headingsRad[l.prev])
    {
      var l := Locate(Wrap(s, totalLengthMeters));
      var q := Lerp(pointsPx[l.prev], pointsPx[l.idx], l.t);
      AngleLerpShortest(headingsRad[l.prev], headingsRad[l.idx], l.t, math.PI);
      Pose(q.x, q.y, AngleLerp(headingsRad[l.prev], headingsRad[l.idx], l.t, math.PI))
    }

    /** Sampling repeats every lap: whole laps added to `s` do not move the sample. */
    lemma SamplePeriodic(s: real, laps: int)
      requires Valid()
      ensures SamplePose(LapsAhead(s, totalLengthMeters, laps)) == SamplePose(s)
      ensures SamplePx(LapsAhead(s, totalLengthMeters, laps)) == SamplePx(s)
    {
      WrapShift(s, totalLengthMeters, laps);
    }

    /** Sampling at a sample's own arc length, within the first lap, gives that sample's point. */
    lemma SampleAtSample(k: nat)
      requires Indexed() && k < |cumulativeMeters| - 1
      requires cumulativeMeters[k] < totalLengthMeters
      ensures SamplePx(cumulativeMeters[k]) == pointsPx[k]
    {
      var c := cumulativeMeters[k];
      WrapUnique(c, totalLengthMeters, 0, c);
      LowerBoundAtSample(cumulativeMeters, k);
      var l := Locate(c);
      if k > 0 {
        FractionAtHi(cumulativeMeters[k - 1], c);
        LerpAtOne(pointsPx[k - 1], pointsPx[k]);
      }
    }

    /**
     * Before the first sample's arc length the position is held at the first
     * sample: the arc lengths have no leading zero entry, so the start of the
     * lap interpolates nothing.
     */
    lemma SampleNearStart(s: real)
      requires Indexed() && 0.0 <= s <= cumulativeMeters[0]
      ensures SamplePx(s) == pointsPx[0]
    {
      var w := if s < totalLengthMeters then s else 0.0;
      if s < totalLengthMeters {
        WrapUnique(s, totalLengthMeters, 0, s);
      } else {
        WrapUnique(s, totalLengthMeters, 1, 0.0);
      }
      LowerBoundUnique(cumulativeMeters, w, 0);
    }

    /** `findNearestSMeters`: the arc length of the first sample closest to `(x, y)`. */
    method FindNearestSMeters(x: real, y: real) returns (s: real)
      requires Shaped()
      ensures s == cumulativeMeters[NearestIndex(pointsPx, x, y, |pointsPx|)]
    {
      var bestIdx := 0;
      var bestD2 := Infinity;
      for i := 0 to |pointsPx|
        invariant bestIdx < |pointsPx|
        invariant i == 0 ==> bestD2 == Infinity && bestIdx == 0
        invariant i > 0 ==> bestIdx == NearestIndex(pointsPx, x, y, i)
        invariant i > 0 ==> bestD2 == Finite(Dist2(pointsPx[bestIdx], x, y))
      {
        var d2 := Dist2(pointsPx[i], x, y);
        if Below(d2, bestD2) {
          bestD2 := Finite(d2);
          bestIdx := i;
        }
      }
      s := cumulativeMeters[bestIdx];
    }
  }

  /** The arc length `findNearestSMeters` answers, as a function of the track. */
  function NearestS(track: Track, x: real, y: real): (s: real)
    requires track.Shaped()
    ensures exists k :: 0 <= k < |track.cumulativeMeters| && s == track.cumulativeMeters[k]
  {
    track.cumulativeMeters[NearestIndex(track.pointsPx, x, y, |track.pointsPx|)]
  }
}
