/**
 * The computer driver: it looks a little way down the track for the
 * tightest corner, aims for a fraction `alpha` of the speed that corner
 * allows, and reaches that speed with a PID controller on the throttle.
 */
module Bots {
  import opened JsMath
  import opened Tracks
  import opened Dynamics
  import opened Difficulty

  /** How far ahead the bot looks, in metres. */
  const LookaheadMeters: real := 15.0
  /** The spacing of the lookahead samples, in metres. */
  const StepMeters: real := 0.5
  /** The speed limit assumed where no corner is in sight. */
  const OpenRoadSpeed: real := 100.0
  /** The lateral acceleration the bot allows for, `0.85 * 9.81`, the same grip as the physics. */
  const LateralLimit: real := 0.85 * 9.81
  /** The integral term is kept within `[-IntegralLimit, IntegralLimit]`. */
  const IntegralLimit: real := 5.0
  /** The controller output is divided by this before it is clamped to a throttle. */
  const OutputScale: real := 10.0
  /** The number of lookahead samples, `d = 0, 0.5, ..., 15`. */
  const Samples: nat := 31

  /** The distance of the `k`-th lookahead sample: `d` after `k` steps of `d += 0.5`. */
  function Offset(k: nat): (d: real)
    ensures d == (k as real) * StepMeters
  {
    if k == 0 then 0.0 else Offset(k - 1) + StepMeters
  }

  /** The loop `for (d = 0; d <= 15; d += 0.5)` visits exactly the first 31 offsets. */
  lemma LookaheadVisits(k: nat)
    ensures Offset(k) <= LookaheadMeters <==> k < Samples
  {
  }

  /** `Math.sqrt(aLatMax * r)`: the fastest speed at which a corner of radius `rPx` pixels holds. */
  function CornerSpeed(math: Maths, rPx: real, mpp: real): real {
    math.sqrt(LateralLimit * (rPx * mpp))
  }

  /** One step of the running minimum: straights (an infinite radius) are skipped. */
  function Limit(track: Track, vMax: real, r: ExtReal): real {
    if r.Infinity? then vMax else Min(vMax, CornerSpeed(track.math, r.r, track.metersPerPixel))
  }

  /** `vMax` after the first `k` lookahead samples from `s`. */
  function SpeedLimit(track: Track, s: real, k: nat): real
    requires track.Valid()
  {
    if k == 0 then OpenRoadSpeed
    else Limit(track, SpeedLimit(track, s, k - 1), LocalRadius(track, s + Offset(k - 1)))
  }

  /** One more sample: the running minimum with that sample's radius. */
  lemma SpeedLimitStep(track: Track, s: real, k: nat)
    requires track.Valid()
    ensures SpeedLimit(track, s, k + 1) == Limit(track, SpeedLimit(track, s, k), LocalRadius(track, s + Offset(k)))
  {
  }

  /** `alpha * vMax`. */
  function Cautious(alpha: real, vMax: real): real {
    alpha * vMax
  }

  /** `computeTargetSpeed`: the margin applied to the lowest corner speed in the lookahead. */
  function TargetSpeed(track: Track, alpha: real, s: real): real
    requires track.Valid()
  {
    Cautious(alpha, SpeedLimit(track, s, Samples))
  }

  /** The corner speed of the `j`-th sample, where there is a corner there. */
  predicate CornerAt(track: Track, s: real, j: nat, v: real)
    requires track.Valid()
  {
    var r := LocalRadius(track, s + Offset(j));
    r.Finite? && v == CornerSpeed(track.math, r.r, track.metersPerPixel)
  }

  /**
   * The running minimum is the least of the open-road speed and the corner
   * speeds of the samples seen so far, and it is one of them.
   */
  lemma {:induction false} SpeedLimitIsMinimum(track: Track, s: real, k: nat)
    requires track.Valid()
    ensures SpeedLimit(track, s, k) <= OpenRoadSpeed
    ensures forall j, v :: 0 <= j < k && CornerAt(track, s, j, v) ==> SpeedLimit(track, s, k) <= v
    ensures SpeedLimit(track, s, k) == OpenRoadSpeed
      || exists j :: 0 <= j < k && CornerAt(track, s, j, SpeedLimit(track, s, k))
  {
    if k > 0 {
      SpeedLimitIsMinimum(track, s, k - 1);
      var prev := SpeedLimit(track, s, k - 1);
      var r := LocalRadius(track, s + Offset(k - 1));
      if r.Finite? {
        assert CornerAt(track, s, k - 1, CornerSpeed(track.math, r.r, track.metersPerPixel));
      }
      forall j, v | 0 <= j < k && CornerAt(track, s, j, v)
        ensures SpeedLimit(track, s, k) <= v
      {
        if j < k - 1 {
          assert prev <= v;
        }
      }
      if SpeedLimit(track, s, k) != OpenRoadSpeed && SpeedLimit(track, s, k) == prev {
        var j :| 0 <= j < k - 1 && CornerAt(track, s, j, prev);
        assert CornerAt(track, s, j, SpeedLimit(track, s, k));
      }
    }
  }

  /** Each sample can only lower the limit. */
  lemma SpeedLimitFalls(track: Track, s: real, k: nat)
    requires track.Valid()
    ensures SpeedLimit(track, s, k + 1) <= SpeedLimit(track, s, k)
  {
  }

  /** The target never exceeds the margin applied to the open-road speed. */
  lemma TargetAtMostMargin(track: Track, alpha: real, s: real)
    requires track.Valid() && alpha >= 0.0
    ensures TargetSpeed(track, alpha, s) <= alpha * OpenRoadSpeed
  {
    SpeedLimitIsMinimum(track, s, Samples);
    if alpha > 0.0 {
      MulMonotone(alpha, SpeedLimit(track, s, Samples), OpenRoadSpeed);
    }
  }

  /** With no corner anywhere in the lookahead the bot aims for the margin of the open-road speed. */
  lemma {:induction false} StraightAhead(track: Track, s: real, k: nat)
    requires track.Valid()
    requires forall j :: 0 <= j < k ==> LocalRadius(track, s + Offset(j)).Infinity?
    ensures SpeedLimit(track, s, k) == OpenRoadSpeed
  {
    if k > 0 {
      StraightAhead(track, s, k - 1);
    }
  }

  lemma AllStraightTarget(track: Track, alpha: real, s: real)
    requires track.Valid()
    requires forall j :: 0 <= j < Samples ==> LocalRadius(track, s + Offset(j)).Infinity?
    ensures TargetSpeed(track, alpha, s) == alpha * OpenRoadSpeed
  {
    StraightAhead(track, s, Samples);
  }

  /** The new integral, clamped so that it cannot wind up. */
  function Integrate(integ: real, err: real, dt: real): real {
    Clamp(integ + err * dt, -IntegralLimit, IntegralLimit)
  }

  function Derivative(err: real, lastErr: real, dt: real): real
    requires dt != 0.0
  {
    (err - lastErr) / dt
  }

  function Control(pid: Pid, err: real, integ: real, deriv: real): real {
    pid.kp * err + pid.ki * integ + pid.kd * deriv
  }

  /** `clamp(u / 10, 0, 1)`. */
  function ThrottleOf(u: real): real {
    Clamp(u / OutputScale, 0.0, 1.0)
  }

  /** What one controller step leaves behind and what it answers. */
  datatype PidOutcome = PidOutcome(integ: real, lastErr: real, throttle: real)

  /** The PID step of `update`, given the speed error of this tick. */
  function PidStep(pid: Pid, integ: real, lastErr: real, err: real, dt: real): (o: PidOutcome)
    requires dt != 0.0
    ensures -IntegralLimit <= o.integ <= IntegralLimit
    ensures 0.0 <= o.throttle <= 1.0
    ensures o.lastErr == err
    ensures -IntegralLimit <= integ + err * dt <= IntegralLimit ==> o.integ == integ + err * dt
  {
    var i := Integrate(integ, err, dt);
    var u := Control(pid, err, i, Derivative(err, lastErr, dt));
    PidOutcome(i, err, ThrottleOf(u))
  }

  /** The output clamp saturates: full throttle for a large demand, none for a negative one. */
  lemma ThrottleSaturates(u: real)
    ensures u <= 0.0 ==> ThrottleOf(u) == 0.0
    ensures u >= OutputScale ==> ThrottleOf(u) == 1.0
    ensures 0.0 <= u <= OutputScale ==> ThrottleOf(u) == u / OutputScale
  {
  }

  lemma IntegrateMonotone(integ: real, e1: real, e2: real, dt: real)
    requires dt > 0.0 && e1 <= e2
    ensures Integrate(integ, e1, dt) <= Integrate(integ, e2, dt)
  {
    MulMonotone(dt, e1, e2);
    ClampMonotone(integ + e1 * dt, integ + e2 * dt, -IntegralLimit, IntegralLimit);
  }

  lemma ControlMonotone(pid: Pid, e1: real, e2: real, i1: real, i2: real, d1: real, d2: real)
    requires pid.kp >= 0.0 && pid.ki >= 0.0 && pid.kd >= 0.0
    requires e1 <= e2 && i1 <= i2 && d1 <= d2
    ensures Control(pid, e1, i1, d1) <= Control(pid, e2, i2, d2)
  {
    MulMonotoneNonNegative(pid.kp, e1, e2);
    MulMonotoneNonNegative(pid.ki, i1, i2);
    MulMonotoneNonNegative(pid.kd, d1, d2);
  }

  lemma DerivativeMonotone(e1: real, e2: real, lastErr: real, dt: real)
    requires dt > 0.0 && e1 <= e2
    ensures Derivative(e1, lastErr, dt) <= Derivative(e2, lastErr, dt)
  {
    var q1, q2 := Derivative(e1, lastErr, dt), Derivative(e2, lastErr, dt);
    assert dt * q1 == e1 - lastErr;
    assert dt * q2 == e2 - lastErr;
    if q2 < q1 {
      MulMonotone(dt, q2, q1);
    }
  }

  lemma ThrottleMonotone(u1: real, u2: real)
    requires u1 <= u2
    ensures ThrottleOf(u1) <= ThrottleOf(u2)
  {
  }

  /**
   * With non-negative gains and a positive step, a car further below its
   * target speed never gets less throttle.
   */
  lemma MoreDeficitMoreThrottle(pid: Pid, integ: real, lastErr: real, e1: real, e2: real, dt: real)
    requires pid.kp >= 0.0 && pid.ki >= 0.0 && pid.kd >= 0.0
    requires dt > 0.0 && e1 <= e2
    ensures PidStep(pid, integ, lastErr, e1, dt).throttle <= PidStep(pid, integ, lastErr, e2, dt).throttle
  {
    IntegrateMonotone(integ, e1, e2, dt);
    DerivativeMonotone(e1, e2, lastErr, dt);
    ControlMonotone(pid, e1, e2, Integrate(integ, e1, dt), Integrate(integ, e2, dt),
      Derivative(e1, lastErr, dt), Derivative(e2, lastErr, dt));
    ThrottleMonotone(Control(pid, e1, Integrate(integ, e1, dt), Derivative(e1, lastErr, dt)),
      Control(pid, e2, Integrate(integ, e2, dt), Derivative(e2, lastErr, dt)));
  }

  /** `Bot`: one computer driver on a track. */
  class Bot {
    const track: Track
    var alpha: real
    var pid: Pid
    var integ: real
    var lastErr: real

    /** A new bot drives the default preset with an empty controller memory. */
    constructor (track: Track)
      ensures this.track == track
      ensures alpha == DefaultPreset.alpha && pid == DefaultPreset.pid
      ensures integ == 0.0 && lastErr == 0.0
    {
      this.track := track;
      alpha := DefaultPreset.alpha;
      pid := DefaultPreset.pid;
      integ := 0.0;
      lastErr := 0.0;
    }

    /**
     * `setDifficulty`: adopts the preset whose name matches ignoring case and
     * keeps the current one for an unknown name; the controller memory is
     * never touched.
     */
    method SetDifficulty(name: string)
      modifies this`alpha, this`pid
      ensures FindPreset(Presets, name).Some? ==>
        alpha == FindPreset(Presets, name).value.alpha && pid == FindPreset(Presets, name).value.pid
      ensures FindPreset(Presets, name).None? ==> alpha == old(alpha) && pid == old(pid)
      ensures integ == old(integ) && lastErr == old(lastErr)
    {
      var preset := FindPreset(Presets, name);
      if preset.Some? {
        alpha := preset.value.alpha;
        pid := preset.value.pid;
      }
    }

    /**
     * `update`: the throttle for the car in `state`, from the target speed at
     * its position and the controller memory, which it advances.
     */
    method Update(state: CarState, dt: real) returns (throttle: real)
      requires track.Valid() && dt != 0.0
      modifies this`integ, this`lastErr
      ensures var o := PidStep(pid, old(integ), old(lastErr), TargetSpeed(track, alpha, state.sMeters) - state.v, dt);
        integ == o.integ && lastErr == o.lastErr && throttle == o.throttle
      ensures -IntegralLimit <= integ <= IntegralLimit && 0.0 <= throttle <= 1.0
      ensures lastErr == TargetSpeed(track, alpha, state.sMeters) - state.v
    {
      var vTarget := ComputeTargetSpeed(state.sMeters);
      var err := vTarget - state.v;
      var deriv := Derivative(err, lastErr, dt);
      integ := Integrate(integ, err, dt);
      lastErr := err;
      var u := Control(pid, err, integ, deriv);
      throttle := ThrottleOf(u);
    }

    /** `computeTargetSpeed`: the running minimum of the corner speeds over the lookahead. */
    method ComputeTargetSpeed(sMeters: real) returns (vTarget: real)
      requires track.Valid()
      ensures vTarget == TargetSpeed(track, alpha, sMeters)
    {
      var vMax := OpenRoadSpeed;
      var d := 0.0;
      ghost var k: nat := 0;
      while d <= LookaheadMeters
        invariant k <= Samples && d == Offset(k)
        invariant vMax == SpeedLimit(track, sMeters, k)
        decreases Samples - k
      {
        LookaheadVisits(k);
        vMax := Tighten(sMeters, d, vMax, k);
        d := d + StepMeters;
        k := k + 1;
      }
      LookaheadVisits(k);
      vTarget := Cautious(alpha, vMax);
    }

    /** The body of the lookahead loop: the running minimum with the sample `d` metres ahead. */
    method Tighten(sMeters: real, d: real, vMax: real, ghost k: nat) returns (v: real)
      requires track.Valid() && d == Offset(k) && vMax == SpeedLimit(track, sMeters, k)
      ensures v == SpeedLimit(track, sMeters, k + 1)
    {
      var rPx := EstimateRadius(sMeters + d);
      SpeedLimitStep(track, sMeters, k);
      v := Limit(track, vMax, rPx);
    }

    /**
     * `estimateRadius`: the bot's own copy of the physics radius estimate. It
     * wraps before it searches, where the physics searches after wrapping
     * inside its `findIndex`; the result is the same.
     */
    method EstimateRadius(sMeters: real) returns (r: ExtReal)
      requires track.Valid()
      ensures r == LocalRadius(track, sMeters)
    {
      var len := track.totalLengthMeters;
      var sWrapped := Rem(Rem(sMeters, len) + len, len);
      WrapIsJsWrap(sMeters, len);
      var idx := FindIndex(sWrapped);
      var pts := track.pointsPx;
      var w := RadiusWindow(idx, |pts|);
      var p0, p1, p2 := pts[w.i0], pts[w.i1], pts[w.i2];
      r := RadiusFromThreePoints(track.math, p0.x, p0.y, p1.x, p1.y, p2.x, p2.y);
    }

    /** `findIndex`: the lower-bound binary search on the arc lengths, without wrapping. */
    method FindIndex(s: real) returns (k: nat)
      requires track.Valid()
      ensures k < |track.cumulativeMeters|
      ensures k == LowerBound(track.cumulativeMeters, s)
    {
      var cum := track.cumulativeMeters;
      IncreasingIsSorted(cum);
      var lo, hi := 0, |cum| - 1;
      while lo < hi
        invariant 0 <= lo <= hi < |cum|
        invariant forall j :: 0 <= j < lo ==> cum[j] < s
        invariant hi == |cum| - 1 || s <= cum[hi]
        decreases hi - lo
      {
        var mid := (lo + hi) / 2;
        if cum[mid] < s {
          lo := mid + 1;
        } else {
          hi := mid;
        }
      }
      LowerBoundUnique(cum, s, lo);
      k := lo;
    }
  }
}
