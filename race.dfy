/**
 * The race bookkeeping: the phases menu, countdown and running, the false
 * start of the human driver (car 0) and its lockout, and per car the laps
 * completed, the best lap time, the time of the current lap and the arc
 * position seen last.
 */
module Race {
  import opened JsMath
  import opened Dynamics

  datatype Status = Menu | Countdown | Running

  /** A throttle above this during the countdown is a false start. */
  const FalseStartThrottle: real := 0.1
  /** Seconds the human is locked out after the start for a false start. */
  const PenaltySeconds: real := 2.0

  /** The race-wide state: phase, countdown and the human's penalty. */
  datatype Phase = Phase(status: Status, remaining: real, total: real, falseStart: bool, penalty: real)

  /** The phase of a new race manager. */
  const MenuPhase: Phase := Phase(Menu, 0.0, 0.0, false, 0.0)

  /**
   * The invariant of the phase: the countdown lies within its total and is
   * over once the race runs, and a penalty is pending only after a false
   * start and never exceeds the lockout.
   */
  predicate Sane(p: Phase) {
    && 0.0 <= p.remaining <= p.total
    && (p.status == Running ==> p.remaining == 0.0)
    && 0.0 <= p.penalty <= PenaltySeconds
    && (p.penalty > 0.0 ==> p.falseStart)
  }

  /** `startCountdown`: a fresh countdown of `seconds` (at least 0) with no false start. */
  function StartPhase(seconds: real): (p: Phase)
    ensures p.status == Countdown && p.remaining == p.total == Max(0.0, seconds)
    ensures !p.falseStart && p.penalty == 0.0
    ensures Sane(p)
  {
    Phase(Countdown, Max(0.0, seconds), Max(0.0, seconds), false, 0.0)
  }

  /** One countdown tick: the false-start latch, then the clock, which starts the race at 0. */
  function CountdownStep(p: Phase, dt: real, throttle: real): (n: Phase)
    requires p.status == Countdown
    ensures n.falseStart == (p.falseStart || throttle > FalseStartThrottle)
    ensures n.penalty == (if !p.falseStart && throttle > FalseStartThrottle then PenaltySeconds else p.penalty)
    ensures n.remaining >= 0.0 && n.total == p.total
    ensures n.status == Running <==> n.remaining == 0.0
    ensures n.status != Menu
  {
    var latched := throttle > FalseStartThrottle && !p.falseStart;
    var falseStart := p.falseStart || latched;
    var penalty := if latched then PenaltySeconds else p.penalty;
    var remaining := Max(0.0, p.remaining - dt);
    Phase(if remaining <= 0.0 then Running else Countdown, remaining, p.total, falseStart, penalty)
  }

  /** One running tick: a pending penalty runs down by `dt`, but not below 0. */
  function PenaltyStep(p: Phase, dt: real): (n: Phase)
    ensures n.status == p.status && n.remaining == p.remaining && n.total == p.total
    ensures n.falseStart == p.falseStart
    ensures p.penalty > 0.0 ==> n.penalty == Max(0.0, p.penalty - dt)
    ensures p.penalty <= 0.0 ==> n.penalty == p.penalty
    ensures dt >= 0.0 ==> n.penalty <= p.penalty
    ensures p.penalty >= 0.0 ==> n.penalty >= 0.0
  {
    if p.penalty > 0.0 then p.(penalty := Max(0.0, p.penalty - dt)) else p
  }

  /** The phase part of `update`: nothing in the menu, the countdown, or the penalty clock. */
  function PhaseStep(p: Phase, dt: real, throttle: real): Phase {
    match p.status
    case Menu => p
    case Countdown => CountdownStep(p, dt, throttle)
    case Running => PenaltyStep(p, dt)
  }

  /** Starting a countdown and ticking with a non-negative `dt` keep the phase invariant. */
  lemma PhaseStepSane(p: Phase, dt: real, throttle: real)
    requires Sane(p) && dt >= 0.0
    ensures Sane(PhaseStep(p, dt, throttle))
    ensures PhaseStep(p, dt, throttle).remaining <= p.remaining
  {
  }

  /** The menu phase satisfies the invariant. */
  lemma MenuSane()
    ensures Sane(MenuPhase)
  {
  }

  /** A false start is punished once: a second press during the countdown does not renew the lockout. */
  lemma PenaltyOnce(p: Phase, dt: real, throttle: real)
    requires p.status == Countdown && p.falseStart
    ensures PhaseStep(p, dt, throttle).penalty == p.penalty
    ensures PhaseStep(p, dt, throttle).falseStart
  {
  }

  /** The race does not leave the running phase, and no tick goes back to the menu. */
  lemma PhaseNeverRegresses(p: Phase, dt: real, throttle: real)
    ensures p.status == Running ==> PhaseStep(p, dt, throttle).status == Running
    ensures p.status != Menu ==> PhaseStep(p, dt, throttle).status != Menu
    ensures p.status == Menu ==> PhaseStep(p, dt, throttle) == p
  {
  }

  /** `n` running ticks of length `dt`. */
  function RunningTicks(p: Phase, dt: real, n: nat): Phase {
    if n == 0 then p else PhaseStep(RunningTicks(p, dt, n - 1), dt, 0.0)
  }

  /** While running, the penalty is the lockout minus the time elapsed, until it reaches 0. */
  lemma {:induction false} PenaltyRunsDown(p: Phase, dt: real, n: nat)
    requires p.status == Running && p.penalty >= 0.0 && dt >= 0.0
    ensures RunningTicks(p, dt, n).status == Running
    ensures RunningTicks(p, dt, n).penalty == Max(0.0, p.penalty - Elapsed(n, dt))
  {
    if n > 0 {
      PenaltyRunsDown(p, dt, n - 1);
    }
  }

  /** `Math.ceil(countdownRemaining)`: the number shown during the countdown. */
  function SecondsShown(p: Phase): (n: int)
    ensures (n - 1) as real < p.remaining <= n as real
    ensures p.remaining >= 0.0 ==> n >= 0
    ensures p.remaining > 0.0 ==> n >= 1
  {
    Ceil(p.remaining)
  }

  /** `getCountdownProgress`: the share of the countdown already elapsed. */
  function Progress(p: Phase): (f: real)
    ensures 0.0 <= f <= 1.0
    ensures p.total <= 0.0 ==> f == 0.0
    ensures p.total > 0.0 && p.remaining == p.total ==> f == 0.0
    ensures p.total > 0.0 && p.remaining <= 0.0 ==> f == 1.0
  {
    if p.total <= 0.0 then 0.0 else Clamp(1.0 - p.remaining / p.total, 0.0, 1.0)
  }

  /** Progress never goes backwards during the countdown. */
  lemma ProgressGrows(p: Phase, dt: real, throttle: real)
    requires p.status == Countdown && p.remaining >= 0.0 && dt >= 0.0
    ensures Progress(p) <= Progress(PhaseStep(p, dt, throttle))
  {
    var n := PhaseStep(p, dt, throttle);
    assert n.total == p.total && n.remaining <= p.remaining;
    if p.total > 0.0 {
      var q1, q2 := p.remaining / p.total, n.remaining / n.total;
      assert p.total * q1 == p.remaining && p.total * q2 == n.remaining;
      if q1 < q2 {
        MulMonotone(p.total, q1, q2);
      }
      ClampMonotone(1.0 - q1, 1.0 - q2, 0.0, 1.0);
    }
  }

  /** `throttleMultiplier`: 0 before the start and for a locked-out human, 1 otherwise. */
  function Gate(p: Phase, index: int): (m: real)
    ensures m == 0.0 || m == 1.0
    ensures m == 1.0 <==> p.status == Running && !(index == 0 && p.penalty > 0.0)
  {
    match p.status
    case Menu => 0.0
    case Countdown => 0.0
    case Running => if index == 0 && p.penalty > 0.0 then 0.0 else 1.0
  }

  /** The cars other than the human are never held back once the race runs. */
  lemma BotsNeverLockedOut(p: Phase, index: int)
    requires p.status == Running && index != 0
    ensures Gate(p, index) == 1.0
  {
  }

  /**
   * `didWrap`: the car crossed the start line between `prev` and `curr` if
   * its place in the lap fell and it did not move back a whole lap or more.
   * Over a zero length every remainder is NaN and the test fails.
   */
  function DidWrap(len: real, prev: real, curr: real): bool {
    if len == 0.0 then false else Rem(curr, len) < Rem(prev, len) && prev - curr < len
  }

  /**
   * For a car moving forward by less than a lap from a non-negative position,
   * a wrap is reported exactly when it entered the next lap.
   */
  lemma WrapIsNewLap(len: real, prev: real, curr: real)
    requires len > 0.0 && 0.0 <= prev <= curr < prev + len
    ensures DidWrap(len, prev, curr) <==> LapIndex(curr, len) == LapIndex(prev, len) + 1
  {
    RemOfNonNegative(prev, len);
    RemOfNonNegative(curr, len);
    assert curr == prev + (curr - prev);
    WrapAdvance(prev, curr - prev, len);
  }

  /** A car that stands still never completes a lap. */
  lemma StandingNeverWraps(len: real, s: real)
    ensures !DidWrap(len, s, s)
  {
  }

  /** The bookkeeping of one car: laps completed, best lap, current lap time and last position. */
  datatype LapRecord = LapRecord(laps: int, best: ExtReal, elapsed: real, last: real)

  /** The record of every car at the start: no laps, no best lap, no time. */
  const FreshRecord: LapRecord := LapRecord(0, Infinity, 0.0, 0.0)

  /** The smaller of a best lap and a new lap time. */
  function Best(best: ExtReal, t: real): (b: ExtReal)
    ensures AtMost(b, best) && b.Finite? && b.r <= t
    ensures b == best || b == Finite(t)
  {
    if Below(t, best) then Finite(t) else best
  }

  /** The per-car body of the running `update`. */
  function LapStep(len: real, r: LapRecord, s: real, dt: real): (n: LapRecord)
    ensures n.last == s
    ensures DidWrap(len, r.last, s) ==>
      n.laps == r.laps + 1 && n.elapsed == 0.0 && n.best == Best(r.best, r.elapsed + dt)
    ensures !DidWrap(len, r.last, s) ==>
      n.laps == r.laps && n.best == r.best && n.elapsed == r.elapsed + dt
  {
    var elapsed := r.elapsed + dt;
    if DidWrap(len, r.last, s) then LapRecord(r.laps + 1, Best(r.best, elapsed), 0.0, s)
    else LapRecord(r.laps, r.best, elapsed, s)
  }

  /**
   * Lap counts never fall and rise by at most one, the best lap never gets
   * worse, and a completed lap's time is never better than the recorded best.
   */
  lemma LapStepMonotone(len: real, r: LapRecord, s: real, dt: real)
    ensures var n := LapStep(len, r, s, dt);
      && r.laps <= n.laps <= r.laps + 1
      && AtMost(n.best, r.best)
      && (n.laps == r.laps + 1 ==> n.best.Finite? && n.best.r <= r.elapsed + dt)
  {
  }

  /** `n` ticks of one car, driven through the positions `ss`. */
  function Drive(len: real, r: LapRecord, ss: seq<real>, dt: real): LapRecord {
    if ss == [] then r else LapStep(len, Drive(len, r, ss[..|ss| - 1], dt), ss[|ss| - 1], dt)
  }

  /**
   * Over any run, the lap count grows by at most the number of ticks, and a
   * recorded best lap never gets worse.
   */
  lemma {:induction false} DriveMonotone(len: real, r: LapRecord, ss: seq<real>, dt: real)
    ensures var n := Drive(len, r, ss, dt);
      r.laps <= n.laps <= r.laps + |ss| && AtMost(n.best, r.best)
  {
    if ss != [] {
      DriveMonotone(len, r, ss[..|ss| - 1], dt);
      LapStepMonotone(len, Drive(len, r, ss[..|ss| - 1], dt), ss[|ss| - 1], dt);
    }
  }

  /** `RaceManager`: the phase and the per-car lap bookkeeping in parallel arrays. */
  class RaceManager {
    const totalLength: real
    var status: Status
    var countdownRemaining: real
    var countdownTotal: real
    var falseStartHuman: bool
    var penaltyHuman: real
    var laps: seq<int>
    var bestLap: seq<ExtReal>
    var elapsedLap: seq<real>
    var lastS: seq<real>

    /** The per-car arrays are parallel. */
    predicate Valid()
      reads this
    {
      |laps| == |bestLap| == |elapsedLap| == |lastS|
    }

    function CarCount(): nat
      reads this
    {
      |laps|
    }

    function Value(): Phase
      reads this
    {
      Phase(status, countdownRemaining, countdownTotal, falseStartHuman, penaltyHuman)
    }

    /** The bookkeeping of car `i`, read across the four arrays. */
    function Record(i: nat): LapRecord
      requires Valid() && i < CarCount()
      reads this
    {
      LapRecord(laps[i], bestLap[i], elapsedLap[i], lastS[i])
    }

    /** A race over a track of `totalTrackMeters` for `carCount` cars, in the menu. */
    constructor (totalTrackMeters: real, carCount: nat)
      ensures Valid() && CarCount() == carCount && totalLength == totalTrackMeters
      ensures Value() == MenuPhase
      ensures forall i :: 0 <= i < carCount ==> Record(i) == FreshRecord
    {
      totalLength := totalTrackMeters;
      status := Menu;
      countdownRemaining, countdownTotal := 0.0, 0.0;
      falseStartHuman, penaltyHuman := false, 0.0;
      laps := seq(carCount, _ => 0);
      bestLap := seq(carCount, _ => Infinity);
      elapsedLap := seq(carCount, _ => 0.0);
      lastS := seq(carCount, _ => 0.0);
    }

    /** `startCountdown`: a new countdown; the lap times restart, laps and best laps are kept. */
    method StartCountdown(seconds: real)
      requires Valid()
      modifies this
      ensures Valid() && Value() == StartPhase(seconds)
      ensures laps == old(laps) && bestLap == old(bestLap) && lastS == old(lastS)
      ensures |elapsedLap| == old(|elapsedLap|) && forall i :: 0 <= i < |elapsedLap| ==> elapsedLap[i] == 0.0
    {
      status := Countdown;
      countdownRemaining := Max(0.0, seconds);
      countdownTotal := Max(0.0, seconds);
      falseStartHuman := false;
      penaltyHuman := 0.0;
      elapsedLap := seq(|elapsedLap|, _ => 0.0);
    }

    /**
     * `update`: advances the phase; only in a race that was already running
     * does it count the laps of the cars in `states`, car `i` by `states[i]`.
     */
    method Update(states: seq<CarState>, dt: real, throttle: real)
      requires Valid() && |states| <= CarCount()
      modifies this
      ensures Valid() && CarCount() == old(CarCount())
      ensures Value() == PhaseStep(old(Value()), dt, throttle)
      ensures old(status) != Running ==>
        laps == old(laps) && bestLap == old(bestLap) && elapsedLap == old(elapsedLap) && lastS == old(lastS)
      ensures old(status) == Running ==> forall i :: 0 <= i < |states| ==>
        Record(i) == LapStep(totalLength, old(Record(i)), states[i].sMeters, dt)
      ensures forall i :: |states| <= i < CarCount() ==> Record(i) == old(Record(i))
    {
      if status == Menu {
        return;
      }
      if status == Countdown {
        if throttle > FalseStartThrottle && !falseStartHuman {
          falseStartHuman := true;
          penaltyHuman := PenaltySeconds;
        }
        countdownRemaining := Max(0.0, countdownRemaining - dt);
        if countdownRemaining <= 0.0 {
          status := Running;
        }
        return;
      }
      if penaltyHuman > 0.0 {
        penaltyHuman := Max(0.0, penaltyHuman - dt);
      }
      for i := 0 to |states|
        invariant Valid() && CarCount() == old(CarCount())
        invariant Value() == PhaseStep(old(Value()), dt, throttle)
        invariant forall j :: 0 <= j < i ==> Record(j) == LapStep(totalLength, old(Record(j)), states[j].sMeters, dt)
        invariant forall j :: i <= j < CarCount() ==> Record(j) == old(Record(j))
      {
        CountLap(i, states[i].sMeters, dt);
      }
    }

    /** The loop body of `update` for car `i` at arc position `s`. */
    method CountLap(i: nat, s: real, dt: real)
      requires Valid() && i < CarCount()
      modifies this`laps, this`bestLap, this`elapsedLap, this`lastS
      ensures Valid() && CarCount() == old(CarCount())
      ensures Record(i) == LapStep(totalLength, old(Record(i)), s, dt)
      ensures forall j :: 0 <= j < CarCount() && j != i ==> Record(j) == old(Record(j))
    {
      elapsedLap := elapsedLap[i := elapsedLap[i] + dt];
      var wrap := DidWrap(totalLength, lastS[i], s);
      if wrap {
        laps := laps[i := laps[i] + 1];
        if Below(elapsedLap[i], bestLap[i]) {
          bestLap := bestLap[i := Finite(elapsedLap[i])];
        }
        elapsedLap := elapsedLap[i := 0.0];
      }
      lastS := lastS[i := s];
    }

    /** `getCountdownSeconds`. */
    function GetCountdownSeconds(): (n: int)
      reads this
      ensures countdownRemaining >= 0.0 ==> n >= 0
      ensures (n - 1) as real < countdownRemaining <= n as real
    {
      SecondsShown(Value())
    }

    /** `getCountdownProgress`. */
    function GetCountdownProgress(): (f: real)
      reads this
      ensures 0.0 <= f <= 1.0
      ensures countdownTotal <= 0.0 ==> f == 0.0
    {
      Progress(Value())
    }

    /** `isFalseStart`. */
    function IsFalseStart(): (f: bool)
      reads this
      ensures f == Value().falseStart
    {
      falseStartHuman
    }

    /** `throttleMultiplier`. */
    function ThrottleMultiplier(index: int): (m: real)
      reads this
      ensures m == 0.0 || m == 1.0
      ensures m == 1.0 <==> status == Running && !(index == 0 && penaltyHuman > 0.0)
    {
      Gate(Value(), index)
    }
  }
}
