/**
 * The vehicle model: every car is either in its slot, where the throttle
 * drives it along the track and an overspeed in a corner throws it out, or
 * deslotted, where it slides off under friction until the marshal puts it
 * back on the nearest sample of the track.
 */
module Dynamics {
  import opened JsMath
  import opened Tracks

  /** Gravity, in m/s^2. */
  const G: real := 9.81
  /** Friction coefficient of the slot. */
  const Mu: real := 0.85
  /** Motor acceleration at full throttle, in m/s^2. */
  const KT: real := 12.0
  /** Quadratic drag coefficient. */
  const CDrag: real := 0.35
  /** Seconds a deslotted car waits for the marshal. */
  const MarshalDelay: real := 2.0
  /** Deceleration of a deslotted car, in m/s^2. */
  const OffFriction: real := 6.0
  /** Lateral acceleration allowed above `Mu * G` before the car deslots. */
  const SlipTolerance: real := 0.01
  /** The outward speed of a deslotting car, as a share of its speed. */
  const OutwardShare: real := 0.5
  /** Twice the triangle area below which three samples count as a straight. */
  const DegenerateArea: real := 0.000001
  /** Metres between neighbouring cars on the starting grid. */
  const GridSpacing: real := 3.0

  /**
   * The fields of a car. `offX`, `offY`, `offVX` and `offVY` are the optional
   * fields of the source, absent as `None`.
   */
  datatype CarSnapshot = CarSnapshot(
    sMeters: real, v: real, deslotted: bool, marshalTimer: real,
    offX: Option<real>, offY: Option<real>, offVX: Option<real>, offVY: Option<real>)
  {
    predicate HasOffTrack() {
      offX.Some? && offY.Some? && offVX.Some? && offVY.Some?
    }

    predicate NoOffTrack() {
      offX.None? && offY.None? && offVX.None? && offVY.None?
    }

    /** The off-track fields are present exactly while the car is deslotted. */
    predicate ModeOk() {
      if deslotted then HasOffTrack() else NoOffTrack()
    }
  }

  /** A car on the grid at position `i`. */
  function GridCar(i: nat): (c: CarSnapshot)
    ensures c.sMeters == GridSpacing * (i as real) && c.v == 0.0
    ensures !c.deslotted && c.marshalTimer == 0.0 && c.ModeOk()
  {
    CarSnapshot(GridSpacing * (i as real), 0.0, false, 0.0, None, None, None, None)
  }

  /** The `a` of `radiusFromThreePoints`: twice the signed area of the triangle. */
  function TwiceArea(x1: real, y1: real, x2: real, y2: real, x3: real, y3: real): real {
    x1 * (y2 - y3) - y1 * (x2 - x3) + x2 * y3 - x3 * y2
  }

  /** `x * x + y * y`: the squared distance of a point from the origin. */
  function Norm2(x: real, y: real): real {
    x * x + y * y
  }

  /** The shape shared by `b` and `c`: each squared norm times a difference of the other two coordinates. */
  function Weighted(s1: real, s2: real, s3: real, u1: real, u2: real, u3: real): real {
    s1 * (u3 - u2) + s2 * (u1 - u3) + s3 * (u2 - u1)
  }

  /** `(-b / 2a, -c / 2a)`. */
  function CenterFrom(a: real, b: real, c: real): Vec2
    requires a != 0.0
  {
    Vec2(-b / (2.0 * a), -c / (2.0 * a))
  }

  /** The circumcentre of a proper triangle, with `b` and `c` as `radiusFromThreePoints` forms them. */
  function Circumcenter(x1: real, y1: real, x2: real, y2: real, x3: real, y3: real): Vec2
    requires TwiceArea(x1, y1, x2, y2, x3, y3) != 0.0
  {
    var s1, s2, s3 := Norm2(x1, y1), Norm2(x2, y2), Norm2(x3, y3);
    CenterFrom(TwiceArea(x1, y1, x2, y2, x3, y3), Weighted(s1, s2, s3, y1, y2, y3), Weighted(s1, s2, s3, -x1, -x2, -x3))
  }

  /**
   * `radiusFromThreePoints`: the distance from the first point to the
   * circumcentre, or +Infinity when the three points are (nearly) on a line.
   */
  function RadiusFromThreePoints(math: Maths, x1: real, y1: real, x2: real, y2: real, x3: real, y3: real)
    : (r: ExtReal)
    ensures r.Infinity? <==> Abs(TwiceArea(x1, y1, x2, y2, x3, y3)) < DegenerateArea
    ensures math.Valid() && r.Finite? ==> r.r >= 0.0
  {
    var a := TwiceArea(x1, y1, x2, y2, x3, y3);
    if Abs(a) < DegenerateArea then Infinity
    else
      var cc := Circumcenter(x1, y1, x2, y2, x3, y3);
      Finite(math.hypot(x1 - cc.x, y1 - cc.y))
  }

  /** Three points on one line through the first are reported as a straight. */
  lemma CollinearIsStraight(math: Maths, x1: real, y1: real, x2: real, y2: real, k: real)
    ensures RadiusFromThreePoints(math, x1, y1, x2, y2, x1 + k * (x2 - x1), y1 + k * (y2 - y1)).Infinity?
  {
    var x3, y3 := x1 + k * (x2 - x1), y1 + k * (y2 - y1);
    var dx, dy := x2 - x1, y2 - y1;
    assert TwiceArea(x1, y1, x2, y2, x3, y3) == dx * (k * dy) - (k * dx) * dy;
    assert dx * (k * dy) == (k * dx) * dy;
  }

  /**
   * Listing the three points backwards flips the sign of the area and keeps
   * the circumcentre, so the straight test does not depend on the direction.
   */
  lemma ReversalKeepsCircumcenter(x1: real, y1: real, x2: real, y2: real, x3: real, y3: real)
    ensures TwiceArea(x3, y3, x2, y2, x1, y1) == -TwiceArea(x1, y1, x2, y2, x3, y3)
    ensures Abs(TwiceArea(x3, y3, x2, y2, x1, y1)) == Abs(TwiceArea(x1, y1, x2, y2, x3, y3))
    ensures TwiceArea(x1, y1, x2, y2, x3, y3) != 0.0 ==>
      Circumcenter(x3, y3, x2, y2, x1, y1) == Circumcenter(x1, y1, x2, y2, x3, y3)
  {
    var a := TwiceArea(x1, y1, x2, y2, x3, y3);
    if a != 0.0 {
      var s1, s2, s3 := Norm2(x1, y1), Norm2(x2, y2), Norm2(x3, y3);
      var b, c := Weighted(s1, s2, s3, y1, y2, y3), Weighted(s1, s2, s3, -x1, -x2, -x3);
      ReversedWeights(s1, s2, s3, y1, y2, y3);
      ReversedWeights(s1, s2, s3, -x1, -x2, -x3);
      NegatedCenter(a, b, c);
    }
  }

  /** The weighted sums `b` and `c` change sign when the points are reversed. */
  lemma ReversedWeights(s1: real, s2: real, s3: real, u1: real, u2: real, u3: real)
    ensures Weighted(s3, s2, s1, u3, u2, u1) == -Weighted(s1, s2, s3, u1, u2, u3)
  {
  }

  lemma NegatedCenter(a: real, b: real, c: real)
    requires a != 0.0
    ensures CenterFrom(-a, -b, -c) == CenterFrom(a, b, c)
  {
    assert -(-b) / (2.0 * -a) == -b / (2.0 * a);
    assert -(-c) / (2.0 * -a) == -c / (2.0 * a);
  }

  /** The sample indices used for the radius: two either side, clamped into the array. */
  datatype Window = Window(i0: nat, i1: nat, i2: nat)

  function RadiusWindow(idx: nat, n: nat): (w: Window)
    requires idx < n
    ensures w.i0 <= w.i1 <= w.i2 < n && w.i1 == idx
    ensures w.i0 == (if idx >= 2 then idx - 2 else 0)
    ensures w.i2 == (if idx + 2 < n then idx + 2 else n - 1)
  {
    Window(if idx >= 2 then idx - 2 else 0, idx, if idx + 2 <= n - 1 then idx + 2 else n - 1)
  }

  /** The radius of the track around the sample found for arc position `s`, in pixels. */
  function LocalRadius(track: Track, s: real): (r: ExtReal)
    requires track.Valid()
    ensures r.Finite? ==> r.r >= 0.0
  {
    var idx := LowerBound(track.cumulativeMeters, Wrap(s, track.totalLengthMeters));
    var w := RadiusWindow(idx, |track.pointsPx|);
    var p0, p1, p2 := track.pointsPx[w.i0], track.pointsPx[w.i1], track.pointsPx[w.i2];
    RadiusFromThreePoints(track.math, p0.x, p0.y, p1.x, p1.y, p2.x, p2.y)
  }

  /** The radius estimate depends on the arc position only through its place in the lap. */
  lemma LocalRadiusByWrap(track: Track, x: real, y: real)
    requires track.Valid() && Wrap(x, track.totalLengthMeters) == Wrap(y, track.totalLengthMeters)
    ensures LocalRadius(track, x) == LocalRadius(track, y)
  {
  }

  /** The radius estimate repeats every lap. */
  lemma LocalRadiusPeriodic(track: Track, s: real, laps: int)
    requires track.Valid()
    ensures LocalRadius(track, LapsAhead(s, track.totalLengthMeters, laps)) == LocalRadius(track, s)
  {
    WrapShift(s, track.totalLengthMeters, laps);
    LocalRadiusByWrap(track, LapsAhead(s, track.totalLengthMeters, laps), s);
  }

  /**
   * `v * v / rMeters > mu * g + 0.01` as JavaScript evaluates it: over a zero
   * radius the quotient is +Infinity for a moving car and NaN, which compares
   * false, for a standing one.
   */
  predicate Overspeed(v: real, rMeters: real) {
    if rMeters == 0.0 then v * v > 0.0 else v * v / rMeters > Mu * G + SlipTolerance
  }

  /** On a real corner the car deslots exactly when it needs more grip than the slot gives. */
  lemma OverspeedMeansGripExceeded(v: real, rMeters: real)
    requires rMeters > 0.0
    ensures Overspeed(v, rMeters) <==> v * v > (Mu * G + SlipTolerance) * rMeters
  {
    var q := v * v / rMeters;
    assert q * rMeters == v * v;
    if q > Mu * G + SlipTolerance {
      ScaleAbove(rMeters, q, v * v, Mu * G + SlipTolerance);
    } else {
      ScaleAtMost(rMeters, q, v * v, Mu * G + SlipTolerance);
    }
  }

  /** 8 m/s into a 5 m corner needs 12.8 m/s^2 of grip, more than the slot's 8.3485. */
  lemma FastIntoTightCornerDeslots()
    ensures Overspeed(8.0, 5.0)
    ensures !Overspeed(6.0, 5.0)
  {
    OverspeedMeansGripExceeded(8.0, 5.0);
    OverspeedMeansGripExceeded(6.0, 5.0);
  }

  /** Throwing the car out at its current arc position: tangent plus an outward push. */
  function Deslot(track: Track, c: CarSnapshot): (d: CarSnapshot)
    requires track.Valid()
    ensures d.deslotted && d.marshalTimer == MarshalDelay && d.HasOffTrack()
    ensures d.sMeters == c.sMeters && d.v == c.v
    ensures Vec2(d.offX.value, d.offY.value) == track.SamplePx(c.sMeters)
  {
    Eject(track.math, c, track.SamplePose(c.sMeters))
  }

  /**
   * The velocity a car leaves its slot with at speed `v` and heading `h`:
   * `v` along the tangent plus `OutwardShare * v` along the left normal.
   */
  function Launch(math: Maths, h: real, v: real): Vec2 {
    var nx, ny := -math.sin(h), math.cos(h);
    var tx, ty := math.cos(h), math.sin(h);
    var outward := OutwardShare * v;
    Vec2(tx * v + nx * outward, ty * v + ny * outward)
  }

  /** The car thrown out from `pose`: placed there, with the launch velocity, timer at the full delay. */
  function Eject(math: Maths, c: CarSnapshot, pose: Pose): (d: CarSnapshot)
    ensures d.deslotted && d.marshalTimer == MarshalDelay && d.HasOffTrack()
    ensures d.sMeters == c.sMeters && d.v == c.v && d.offX == Some(pose.x) && d.offY == Some(pose.y)
  {
    var w := Launch(math, pose.headingRad, c.v);
    c.(offX := Some(pose.x), offY := Some(pose.y), offVX := Some(w.x), offVY := Some(w.y),
       deslotted := true, marshalTimer := MarshalDelay)
  }

  /** The new speed of a car in its slot: motor minus drag, never below zero. */
  function SlotSpeed(v: real, throttle: real, dt: real): real {
    Max(0.0, v + (KT * Clamp(throttle, 0.0, 1.0) - CDrag * v * v) * dt)
  }

  /** The car moved along its slot for one tick: new speed, then new arc position. */
  function SlotMove(c: CarSnapshot, dt: real, throttle: real): (m: CarSnapshot)
    ensures m.v == SlotSpeed(c.v, throttle, dt) && m.sMeters == c.sMeters + m.v * dt
    ensures m.deslotted == c.deslotted && m.marshalTimer == c.marshalTimer
    ensures m.offX == c.offX && m.offY == c.offY && m.offVX == c.offVX && m.offVY == c.offVY
  {
    var v := SlotSpeed(c.v, throttle, dt);
    c.(v := v, sMeters := c.sMeters + v * dt)
  }

  /** A finite radius `r` in pixels, taken to metres, that speed `v` overloads. */
  predicate Overloads(v: real, r: ExtReal, mpp: real) {
    r.Finite? && Overspeed(v, r.r * mpp)
  }

  /** The deslot test: the track is curved at `s` and speed `v` overloads its radius. */
  predicate ShouldDeslot(track: Track, mpp: real, s: real, v: real)
    requires track.Valid()
  {
    Overloads(v, LocalRadius(track, s), mpp)
  }

  /** One tick of a car in its slot. */
  function OnTrackStep(track: Track, mpp: real, c: CarSnapshot, dt: real, throttle: real): CarSnapshot
    requires track.Valid()
  {
    var moved := SlotMove(c, dt, throttle);
    if ShouldDeslot(track, mpp, moved.sMeters, moved.v) then Deslot(track, moved) else moved
  }

  /** `newSpeed / speed`: the factor a sliding car's velocity is scaled by in one tick. */
  function SlideScale(speed: real, dt: real): (k: real)
    requires speed > 0.0
    ensures dt >= 0.0 ==> 0.0 <= k <= 1.0
  {
    var newSpeed := Max(0.0, speed - OffFriction * dt);
    if dt >= 0.0 then
      ScaleAtMost(speed, newSpeed / speed, newSpeed, 1.0);
      ScaleAtLeast(speed, newSpeed / speed, newSpeed, 0.0);
      newSpeed / speed
    else newSpeed / speed
  }

  /**
   * The velocity of a sliding car after one tick: scaled so that the speed
   * drops by `OffFriction * dt` (not below zero); a standing car stays put.
   */
  function SlideVelocity(math: Maths, vx: real, vy: real, dt: real): Vec2 {
    var speed := math.hypot(vx, vy);
    if speed > 0.0 then Vec2(vx * SlideScale(speed, dt), vy * SlideScale(speed, dt)) else Vec2(vx, vy)
  }

  /** Each component of the slide velocity shrinks towards zero and never turns round. */
  lemma SlideVelocityShrinks(math: Maths, vx: real, vy: real, dt: real)
    requires dt >= 0.0
    ensures var w := SlideVelocity(math, vx, vy, dt);
      && Abs(w.x) <= Abs(vx) && Abs(w.y) <= Abs(vy)
      && w.x * vx >= 0.0 && w.y * vy >= 0.0
  {
    var speed := math.hypot(vx, vy);
    var k := if speed > 0.0 then SlideScale(speed, dt) else 1.0;
    ScaledDown(vx, k);
    ScaledDown(vy, k);
    if speed <= 0.0 {
      assert vx * k == vx && vy * k == vy;
    }
  }

  /** A pixel coordinate moved on by `dt` seconds at velocity `v` metres per second. */
  function Drift(p: real, v: real, dt: real, mpp: real): real
    requires mpp != 0.0
  {
    p + v * dt / mpp
  }

  /** The slide of a deslotted car over one tick: new velocity, then the position moves by it. */
  function Glide(math: Maths, mpp: real, c: CarSnapshot, dt: real): (g: CarSnapshot)
    requires c.HasOffTrack() && mpp != 0.0
    ensures g.HasOffTrack()
    ensures g.sMeters == c.sMeters && g.v == c.v && g.deslotted == c.deslotted
    ensures g.marshalTimer == c.marshalTimer
  {
    var w := SlideVelocity(math, c.offVX.value, c.offVY.value, dt);
    c.(offVX := Some(w.x), offVY := Some(w.y),
       offX := Some(Drift(c.offX.value, w.x, dt, mpp)), offY := Some(Drift(c.offY.value, w.y, dt, mpp)))
  }

  /** The velocity of a sliding car shrinks towards zero and never turns round. */
  lemma GlideSlows(math: Maths, mpp: real, c: CarSnapshot, dt: real)
    requires c.HasOffTrack() && mpp != 0.0 && dt >= 0.0
    ensures var g := Glide(math, mpp, c, dt);
      && Abs(g.offVX.value) <= Abs(c.offVX.value) && Abs(g.offVY.value) <= Abs(c.offVY.value)
      && g.offVX.value * c.offVX.value >= 0.0 && g.offVY.value * c.offVY.value >= 0.0
  {
    SlideVelocityShrinks(math, c.offVX.value, c.offVY.value, dt);
  }

  /** Putting a car back on the track at arc position `s`, standing. */
  function Respot(c: CarSnapshot, s: real): (r: CarSnapshot)
    ensures r.sMeters == s && r.v == 0.0 && !r.deslotted && r.NoOffTrack()
    ensures r.marshalTimer == c.marshalTimer
  {
    c.(sMeters := s, v := 0.0, deslotted := false, offX := None, offY := None, offVX := None, offVY := None)
  }

  /** One tick of a deslotted car: slide, count the marshal timer down, respot when it runs out. */
  function OffTrackStep(track: Track, mpp: real, c: CarSnapshot, dt: real): CarSnapshot
    requires track.Valid() && mpp != 0.0
  {
    var g := if c.HasOffTrack() then Glide(track.math, mpp, c, dt) else c;
    var timed := g.(marshalTimer := g.marshalTimer - dt);
    if timed.marshalTimer <= 0.0 then
      Respot(timed, NearestS(track, timed.offX.GetOr(0.0), timed.offY.GetOr(0.0)))
    else timed
  }

  /** `updateCar`: one tick of one car in whichever mode it is in. */
  function StepCar(track: Track, mpp: real, c: CarSnapshot, dt: real, throttle: real): CarSnapshot
    requires track.Valid() && mpp != 0.0
  {
    if c.deslotted then OffTrackStep(track, mpp, c, dt) else OnTrackStep(track, mpp, c, dt, throttle)
  }

  /**
   * In its slot the car's speed never goes negative, its arc position moves
   * on by exactly the new speed times `dt`, and so never goes back for `dt >= 0`.
   */
  lemma SlotMotion(track: Track, mpp: real, c: CarSnapshot, dt: real, throttle: real)
    requires track.Valid() && mpp > 0.0 && !c.deslotted
    ensures var n := StepCar(track, mpp, c, dt, throttle);
      && n.v == SlotSpeed(c.v, throttle, dt) && n.v >= 0.0
      && n.sMeters == c.sMeters + n.v * dt
      && (dt >= 0.0 ==> n.sMeters >= c.sMeters)
  {
    var m := SlotMove(c, dt, throttle);
    if dt >= 0.0 {
      PositiveProductOrZero(m.v, dt);
    }
  }

  /** With the throttle closed, drag alone can only slow a moving car, never below zero. */
  lemma CoastingSlows(v: real, throttle: real, dt: real)
    requires v >= 0.0 && throttle <= 0.0 && dt >= 0.0
    ensures 0.0 <= SlotSpeed(v, throttle, dt) <= v
  {
    SquareNonNegative(v);
    PositiveProductOrZero(CDrag * (v * v), dt);
    assert CDrag * v * v == CDrag * (v * v);
  }

  /**
   * A car in its slot deslots on this tick exactly when the track is curved
   * at its new position and the new speed overloads that radius; then the
   * marshal timer starts at the full delay and the off-track fields are set.
   */
  lemma DeslotCondition(track: Track, mpp: real, c: CarSnapshot, dt: real, throttle: real)
    requires track.Valid() && mpp > 0.0 && !c.deslotted
    ensures var n := StepCar(track, mpp, c, dt, throttle);
      && (n.deslotted <==> ShouldDeslot(track, mpp, n.sMeters, n.v))
      && (n.deslotted ==> n.marshalTimer == MarshalDelay && n.HasOffTrack())
      && (!n.deslotted ==> n == SlotMove(c, dt, throttle))
  {
  }

  /** A straight (infinite radius) never throws a car out, however fast it goes. */
  lemma StraightNeverDeslots(track: Track, mpp: real, c: CarSnapshot, dt: real, throttle: real)
    requires track.Valid() && mpp > 0.0 && !c.deslotted
    requires LocalRadius(track, SlotMove(c, dt, throttle).sMeters).Infinity?
    ensures !StepCar(track, mpp, c, dt, throttle).deslotted
  {
  }

  /**
   * While the marshal timer has not run out, a deslotted car keeps its arc
   * position and speed, its timer drops by `dt`, and its slide only slows.
   */
  lemma WaitingForMarshal(track: Track, mpp: real, c: CarSnapshot, dt: real, throttle: real)
    requires track.Valid() && mpp > 0.0 && c.deslotted && c.HasOffTrack()
    requires c.marshalTimer - dt > 0.0 && dt >= 0.0
    ensures var n := StepCar(track, mpp, c, dt, throttle);
      && n.deslotted && n.HasOffTrack() && n.marshalTimer == c.marshalTimer - dt
      && n.sMeters == c.sMeters && n.v == c.v
      && Abs(n.offVX.value) <= Abs(c.offVX.value) && Abs(n.offVY.value) <= Abs(c.offVY.value)
  {
    GlideSlows(track.math, mpp, c, dt);
  }

  /**
   * When the marshal timer runs out, the car stands at the arc length of the
   * sample nearest to where it slid, back in its slot with no off-track fields.
   */
  lemma MarshalRespots(track: Track, mpp: real, c: CarSnapshot, dt: real, throttle: real)
    requires track.Valid() && mpp > 0.0 && c.deslotted && c.HasOffTrack()
    requires c.marshalTimer - dt <= 0.0
    ensures var n := StepCar(track, mpp, c, dt, throttle);
      var g := Glide(track.math, mpp, c, dt);
      && n.sMeters == NearestS(track, g.offX.value, g.offY.value)
      && n.v == 0.0 && !n.deslotted && n.NoOffTrack()
      && n.marshalTimer == c.marshalTimer - dt
  {
  }

  /** Every tick keeps the off-track fields present exactly while the car is deslotted. */
  lemma StepKeepsMode(track: Track, mpp: real, c: CarSnapshot, dt: real, throttle: real)
    requires track.Valid() && mpp > 0.0 && c.ModeOk()
    ensures StepCar(track, mpp, c, dt, throttle).ModeOk()
  {
  }

  /** `n` ticks of a car with the throttle closed. */
  function Ticks(track: Track, mpp: real, c: CarSnapshot, dt: real, n: nat): CarSnapshot
    requires track.Valid() && mpp > 0.0
  {
    if n == 0 then c else StepCar(track, mpp, Ticks(track, mpp, c, dt, n - 1), dt, 0.0)
  }

  /**
   * The marshal timer is a fixed delay: as long as `n` ticks have not used it
   * up, the car is still out, standing where it left the slot, its timer
   * down by exactly the time those ticks took.
   */
  lemma {:induction false} MarshalCountdown(track: Track, mpp: real, c: CarSnapshot, dt: real, n: nat)
    requires track.Valid() && mpp > 0.0 && c.deslotted && c.ModeOk() && dt > 0.0
    requires Elapsed(n, dt) < c.marshalTimer
    ensures var e := Ticks(track, mpp, c, dt, n);
      && e.deslotted && e.ModeOk() && e.marshalTimer == c.marshalTimer - Elapsed(n, dt)
      && e.sMeters == c.sMeters && e.v == c.v
  {
    if n > 0 {
      MarshalCountdown(track, mpp, c, dt, n - 1);
      WaitingForMarshal(track, mpp, Ticks(track, mpp, c, dt, n - 1), dt, 0.0);
    }
  }

  /**
   * The tick that uses up the delay puts the car back: after `n + 1` ticks,
   * where `n` ticks fall short of the timer, it stands in its slot.
   */
  lemma MarshalDelayElapses(track: Track, mpp: real, c: CarSnapshot, dt: real, n: nat)
    requires track.Valid() && mpp > 0.0 && c.deslotted && c.ModeOk() && dt > 0.0
    requires Elapsed(n, dt) < c.marshalTimer <= Elapsed(n + 1, dt)
    ensures var e := Ticks(track, mpp, c, dt, n + 1);
      && !e.deslotted && e.v == 0.0 && e.NoOffTrack() && e.ModeOk()
  {
    MarshalCountdown(track, mpp, c, dt, n);
    MarshalRespots(track, mpp, Ticks(track, mpp, c, dt, n), dt, 0.0);
  }

  /** The deslot test read off from the radius found at `s`. */
  lemma DeslotByRadius(track: Track, mpp: real, s: real, v: real, r: ExtReal)
    requires track.Valid() && r == LocalRadius(track, s)
    ensures ShouldDeslot(track, mpp, s, v) == Overloads(v, r, mpp)
  {
  }

  /** `throttles[i] ?? 0`: a car without a throttle entry gets none. */
  function ThrottleFor(throttles: seq<real>, i: nat): (t: real)
    ensures i < |throttles| ==> t == throttles[i]
    ensures i >= |throttles| ==> t == 0.0
  {
    if i < |throttles| then throttles[i] else 0.0
  }

  predicate Distinct(cars: seq<CarState>) {
    forall i, j :: 0 <= i < j < |cars| ==> cars[i] != cars[j]
  }

  /** `CarState`: one car, updated field by field in place. */
  class CarState {
    var sMeters: real
    var v: real
    var deslotted: bool
    var marshalTimer: real
    var offX: Option<real>
    var offY: Option<real>
    var offVX: Option<real>
    var offVY: Option<real>

    function Value(): CarSnapshot
      reads this
    {
      CarSnapshot(sMeters, v, deslotted, marshalTimer, offX, offY, offVX, offVY)
    }

    /** A car on the grid at `sMeters`: standing, in its slot, timer 0, no off-track fields. */
    constructor (sMeters: real)
      ensures Value() == CarSnapshot(sMeters, 0.0, false, 0.0, None, None, None, None)
    {
      this.sMeters := sMeters;
      v := 0.0;
      deslotted := false;
      marshalTimer := 0.0;
      offX, offY, offVX, offVY := None, None, None, None;
    }
  }

  /** `Physics`: the cars and the rules that move them. */
  class Physics {
    const track: Track
    const metersPerPixel: real
    var cars: seq<CarState>

    ghost predicate Valid()
      reads this
    {
      track.Valid() && metersPerPixel > 0.0 && Distinct(cars)
    }

    constructor (track: Track, metersPerPixel: real)
      requires track.Valid() && metersPerPixel > 0.0
      ensures Valid() && this.track == track && this.metersPerPixel == metersPerPixel && cars == []
    {
      this.track := track;
      this.metersPerPixel := metersPerPixel;
      cars := [];
    }

    /** `initCars`: a fresh grid of `count` cars, three metres apart. */
    method InitCars(count: nat)
      requires Valid()
      modifies this`cars
      ensures Valid() && |cars| == count
      ensures forall i :: 0 <= i < count ==> fresh(cars[i]) && cars[i].Value() == GridCar(i)
    {
      var built: seq<CarState> := [];
      for i := 0 to count
        invariant |built| == i && Distinct(built)
        invariant forall j :: 0 <= j < i ==> fresh(built[j]) && built[j].Value() == GridCar(j)
      {
        var car := new CarState(GridSpacing * (i as real));
        built := built + [car];
      }
      cars := built;
    }

    /** `update`: every car once, in index order, with its own throttle or none. */
    method Update(dt: real, throttles: seq<real>)
      requires Valid()
      modifies cars
      ensures Valid()
      ensures forall i :: 0 <= i < |cars| ==>
        cars[i].Value() == StepCar(track, metersPerPixel, old(cars[i].Value()), dt, ThrottleFor(throttles, i))
    {
      for i := 0 to |cars|
        invariant forall j :: 0 <= j < i ==>
          cars[j].Value() == StepCar(track, metersPerPixel, old(cars[j].Value()), dt, ThrottleFor(throttles, j))
        invariant forall j :: i <= j < |cars| ==> cars[j].Value() == old(cars[j].Value())
      {
        var throttle := ThrottleFor(throttles, i);
        UpdateCar(cars[i], dt, throttle);
      }
    }

    /** `updateCar`: one tick of one car, in whichever mode it is in. */
    method UpdateCar(state: CarState, dt: real, throttle: real)
      requires Valid()
      modifies state
      ensures state.Value() == StepCar(track, metersPerPixel, old(state.Value()), dt, throttle)
    {
      if state.deslotted {
        OffTrackTick(state, dt);
        return;
      }
      OnTrackTick(state, dt, throttle);
    }

    /** The off-track branch of `updateCar`: slide, count down, respot. */
    method OffTrackTick(state: CarState, dt: real)
      requires Valid() && state.deslotted
      modifies state
      ensures state.Value() == OffTrackStep(track, metersPerPixel, old(state.Value()), dt)
    {
      if state.offX.Some? && state.offY.Some? && state.offVX.Some? && state.offVY.Some? {
        SlideTick(state, dt);
      }
      state.marshalTimer := state.marshalTimer - dt;
      if state.marshalTimer <= 0.0 {
        var sNearest := track.FindNearestSMeters(state.offX.GetOr(0.0), state.offY.GetOr(0.0));
        state.sMeters := sNearest;
        state.v := 0.0;
        state.deslotted := false;
        state.offX, state.offY, state.offVX, state.offVY := None, None, None, None;
      }
    }

    /** The sliding part of the off-track branch, for a car whose off-track fields are all set. */
    method SlideTick(state: CarState, dt: real)
      requires Valid() && state.Value().HasOffTrack()
      modifies state
      ensures state.Value() == Glide(track.math, metersPerPixel, old(state.Value()), dt)
    {
      var w := SlideVelocity(track.math, state.offVX.value, state.offVY.value, dt);
      state.offVX, state.offVY := Some(w.x), Some(w.y);
      state.offX := Some(Drift(state.offX.value, state.offVX.value, dt, metersPerPixel));
      state.offY := Some(Drift(state.offY.value, state.offVY.value, dt, metersPerPixel));
    }

    /** The in-slot branch of `updateCar`: motor and drag, move, then the deslot test. */
    method OnTrackTick(state: CarState, dt: real, throttle: real)
      requires Valid() && !state.deslotted
      modifies state
      ensures state.Value() == OnTrackStep(track, metersPerPixel, old(state.Value()), dt, throttle)
    {
      SlotTick(state, dt, throttle);
      var overloaded := CheckDeslot(state.sMeters, state.v);
      if overloaded {
        DeslotTick(state);
      }
    }

    /** The curvature test of `updateCar`: the radius at `sMeters`, then the lateral load at speed `v`. */
    method CheckDeslot(sMeters: real, v: real) returns (overloaded: bool)
      requires Valid()
      ensures overloaded == ShouldDeslot(track, metersPerPixel, sMeters, v)
    {
      var curvatureR := EstimateLocalRadius(sMeters);
      DeslotByRadius(track, metersPerPixel, sMeters, v, curvatureR);
      overloaded := Overloads(v, curvatureR, metersPerPixel);
    }

    /** Motor and drag change the speed, then the car moves along its slot by the new speed. */
    method SlotTick(state: CarState, dt: real, throttle: real)
      modifies state
      ensures state.Value() == SlotMove(old(state.Value()), dt, throttle)
    {
      var accel := KT * Clamp(throttle, 0.0, 1.0) - CDrag * state.v * state.v;
      state.v := Max(0.0, state.v + accel * dt);
      state.sMeters := state.sMeters + state.v * dt;
      assert state.v == SlotSpeed(old(state.v), throttle, dt);
      assert state.sMeters == old(state.sMeters) + state.v * dt;
    }

    /** The deslot of `updateCar`: the car leaves at the pose sampled at its arc position. */
    method DeslotTick(state: CarState)
      requires Valid()
      modifies state
      ensures state.Value() == Deslot(track, old(state.Value()))
    {
      var pose := track.SamplePose(state.sMeters);
      EjectTick(state, pose);
    }

    /** Placing the car at `pose` with the launch velocity and starting the marshal timer. */
    method EjectTick(state: CarState, pose: Pose)
      modifies state
      ensures state.Value() == Eject(track.math, old(state.Value()), pose)
    {
      var w := Launch(track.math, pose.headingRad, state.v);
      state.offX, state.offY := Some(pose.x), Some(pose.y);
      state.offVX, state.offVY := Some(w.x), Some(w.y);
      state.deslotted := true;
      state.marshalTimer := MarshalDelay;
    }

    /** `estimateLocalRadius`: the three-sample radius around the sample found for `sMeters`. */
    method EstimateLocalRadius(sMeters: real) returns (r: ExtReal)
      requires Valid()
      ensures r == LocalRadius(track, sMeters)
    {
      var idx := FindIndex(sMeters);
      var pts := track.pointsPx;
      var w := RadiusWindow(idx, |pts|);
      var p0, p1, p2 := pts[w.i0], pts[w.i1], pts[w.i2];
      r := RadiusFromThreePoints(track.math, p0.x, p0.y, p1.x, p1.y, p2.x, p2.y);
    }

    /** `findIndex`: wraps `sMeters` into the lap, then binary-searches the arc lengths. */
    method FindIndex(sMeters: real) returns (k: nat)
      requires Valid()
      ensures k < |track.cumulativeMeters|
      ensures k == LowerBound(track.cumulativeMeters, Wrap(sMeters, track.totalLengthMeters))
    {
      var len := track.totalLengthMeters;
      var sWrapped := Rem(Rem(sMeters, len) + len, len);
      WrapIsJsWrap(sMeters, len);
      var cum := track.cumulativeMeters;
      IncreasingIsSorted(cum);
      var lo, hi := 0, |cum| - 1;
      while lo < hi
        invariant 0 <= lo <= hi < |cum|
        invariant forall j :: 0 <= j < lo ==> cum[j] < sWrapped
        invariant hi == |cum| - 1 || sWrapped <= cum[hi]
        decreases hi - lo
      {
        var mid := (lo + hi) / 2;
        if cum[mid] < sWrapped {
          lo := mid + 1;
        } else {
          hi := mid;
        }
      }
      LowerBoundUnique(cum, sWrapped, lo);
      k := lo;
    }
  }
}
