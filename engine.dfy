/**
 * The fixed-step game loop: every animation frame adds the real time that
 * passed (at most three steps' worth) to an accumulator, runs the update
 * once per whole step in it and renders with the leftover fraction of a
 * step. The clock is given as the `now` of each call, in milliseconds;
 * the one pending animation-frame callback is a field, and the update and
 * render callbacks are recorded as the sequence of their arguments.
 */
module Engine {
  import opened JsMath

  /** The most frame time one tick accounts for, in steps. */
  const MaxStepsPerFrame: real := 3.0

  /** The animation-frame callback waiting to run, if any. */
  datatype Frame = NoFrame | TickFrame | StartFrame

  /** Everything about the loop that its methods change. */
  datatype LoopState = LoopState(
    accumulator: real,
    last: real,
    running: bool,
    pending: Frame,
    listeners: nat,
    updates: seq<real>,
    renders: seq<real>)

  /** The state of a new loop. */
  const Idle: LoopState := LoopState(0.0, 0.0, false, NoFrame, 0, [], [])

  /** `Math.min((now - last) / 1000, dt * 3)`: the seconds one tick accounts for. */
  function FrameTime(now: real, last: real, dt: real): (f: real)
    ensures f <= dt * MaxStepsPerFrame
    ensures now >= last && dt >= 0.0 ==> f >= 0.0
  {
    Min((now - last) / 1000.0, dt * MaxStepsPerFrame)
  }

  /** The result of the drain loop: how many updates ran and what is left over. */
  datatype Drained = Drained(steps: nat, rest: real)

  /** `while (accumulator >= dt) { update(dt); accumulator -= dt; }` */
  function Drain(acc: real, dt: real): (d: Drained)
    requires dt > 0.0
    ensures d.rest < dt
    ensures acc >= 0.0 ==> d.rest >= 0.0
    ensures d.rest == acc - Elapsed(d.steps, dt)
    ensures acc < dt ==> d.steps == 0 && d.rest == acc
    decreases if acc >= dt then (acc / dt).Floor else 0
  {
    if acc >= dt then
      StepLess(acc, dt);
      var d := Drain(acc - dt, dt);
      Drained(d.steps + 1, d.rest)
    else Drained(0, acc)
  }

  /** Taking one step out of the accumulator leaves one step fewer in it. */
  lemma StepLess(acc: real, dt: real)
    requires dt > 0.0
    ensures (acc - dt) / dt == acc / dt - 1.0
  {
    var q1, q2 := (acc - dt) / dt, acc / dt;
    assert dt * q1 == acc - dt && dt * q2 == acc;
    assert dt * (q2 - q1 - 1.0) == 0.0;
    if q2 - q1 - 1.0 != 0.0 {
      NonZeroProduct(dt, q2 - q1 - 1.0);
    }
  }

  /** Less than `n + 1` steps in the accumulator means at most `n` updates. */
  lemma {:induction false} DrainAtMost(acc: real, dt: real, n: nat)
    requires dt > 0.0 && acc < Elapsed(n + 1, dt)
    ensures Drain(acc, dt).steps <= n
    decreases n
  {
    if acc >= dt {
      assert n > 0;
      DrainAtMost(acc - dt, dt, n - 1);
    }
  }

  /** `accumulator / dt`: how far the render is between the last two updates. */
  function Alpha(acc: real, dt: real): (a: real)
    requires dt > 0.0
    ensures 0.0 <= acc < dt ==> 0.0 <= a < 1.0
  {
    var a := acc / dt;
    assert dt * a == acc;
    if 0.0 <= acc < dt then
      ScaleBelow(dt, a, acc, 1.0);
      ScaleAtLeast(dt, a, acc, 0.0);
      a
    else a
  }

  /** `start`: a no-op when running; otherwise run, reset, schedule the first tick, listen. */
  function StartStep(s: LoopState, now: real): (n: LoopState)
    ensures s.running ==> n == s
  {
    if s.running then s
    else s.(running := true, accumulator := 0.0, last := now, pending := TickFrame, listeners := s.listeners + 1)
  }

  /** `tick`: nothing unless running; otherwise account for the frame, drain, render, reschedule. */
  function TickStep(s: LoopState, now: real, dt: real): (n: LoopState)
    requires dt > 0.0
    ensures !s.running ==> n == s
  {
    if !s.running then s
    else
      var d := Drain(s.accumulator + FrameTime(now, s.last, dt), dt);
      s.(last := now, accumulator := d.rest, updates := s.updates + seq(d.steps, _ => dt),
         renders := s.renders + [Alpha(d.rest, dt)], pending := TickFrame)
  }

  /** `pause`: a no-op when stopped; otherwise stop and cancel the pending frame. */
  function PauseStep(s: LoopState): (n: LoopState)
    ensures !s.running ==> n == s
    ensures !n.running && n.pending == (if s.running then NoFrame else s.pending)
  {
    if !s.running then s else s.(running := false, pending := NoFrame)
  }

  /** `resume` as written: run and reset, then defer a call of `start`. */
  function ResumeStep(s: LoopState, now: real): (n: LoopState)
    ensures s.running ==> n == s
    ensures n.running
  {
    if s.running then s else s.(running := true, accumulator := 0.0, last := now, pending := StartFrame)
  }

  /** The browser running the pending animation-frame callback. */
  function FrameStep(s: LoopState, now: real, dt: real): LoopState
    requires dt > 0.0
  {
    match s.pending
    case NoFrame => s
    case TickFrame => TickStep(s.(pending := NoFrame), now, dt)
    case StartFrame => StartStep(s.(pending := NoFrame), now)
  }

  /** The loop's invariant between frames: less than one step waits in the accumulator. */
  predicate Settled(s: LoopState, dt: real) {
    0.0 <= s.accumulator < dt
  }

  /**
   * A tick of a running loop with a clock that has not gone back: at most
   * three updates, each with the fixed step, then a render with `alpha` in
   * `[0, 1)`, and again less than one step left over.
   */
  lemma TickBounds(s: LoopState, now: real, dt: real)
    requires dt > 0.0 && s.running && Settled(s, dt) && now >= s.last
    ensures var n := TickStep(s, now, dt);
      && Settled(n, dt)
      && s.updates <= n.updates && |n.updates| <= |s.updates| + 3
      && (forall i :: |s.updates| <= i < |n.updates| ==> n.updates[i] == dt)
      && |n.renders| == |s.renders| + 1 && 0.0 <= n.renders[|s.renders|] < 1.0
      && n.pending == TickFrame && n.running
  {
    var acc := s.accumulator + FrameTime(now, s.last, dt);
    assert acc < Elapsed(4, dt);
    DrainAtMost(acc, dt, 3);
  }

  /** The time the updates of a tick stand for is exactly what the accumulator lost. */
  lemma TickConservesTime(s: LoopState, now: real, dt: real)
    requires dt > 0.0 && s.running
    ensures var n := TickStep(s, now, dt);
      n.accumulator + Elapsed(|n.updates| - |s.updates|, dt) == s.accumulator + FrameTime(now, s.last, dt)
  {
  }

  /** From a new loop, `start` schedules a tick and the tick that follows renders. */
  lemma StartThenTick(now: real, later: real, dt: real)
    requires dt > 0.0 && later >= now
    ensures var s := FrameStep(StartStep(Idle, now), later, dt);
      s.running && s.pending == TickFrame && |s.renders| == 1 && Settled(s, dt)
  {
    TickBounds(StartStep(Idle, now).(pending := NoFrame), later, dt);
  }

  /**
   * The defect of `resume` as written: it marks the loop running before the
   * deferred `start` runs, so `start` returns at once and no tick is ever
   * scheduled again. The loop then stays frozen whatever frames come.
   */
  lemma ResumeStalls(s: LoopState, t1: real, t2: real, dt: real)
    requires dt > 0.0 && !s.running
    ensures var r := FrameStep(ResumeStep(s, t1), t2, dt);
      r.running && r.pending == NoFrame && r.renders == s.renders && r.updates == s.updates
    ensures var r := FrameStep(ResumeStep(s, t1), t2, dt);
      forall t :: FrameStep(r, t, dt) == r
  {
  }

  /** A hide-and-show cycle of a running loop freezes it. */
  lemma PauseResumeFreezes(s: LoopState, t1: real, t2: real, dt: real)
    requires dt > 0.0 && s.running
    ensures var r := FrameStep(ResumeStep(PauseStep(s), t1), t2, dt);
      r.running && r.pending == NoFrame && r.renders == s.renders
  {
    ResumeStalls(PauseStep(s), t1, t2, dt);
  }

  /**
   * `resume` as evidently intended: run and reset as `start` does and
   * schedule the tick itself.
   */
  function ResumeIntended(s: LoopState, now: real): (n: LoopState)
    ensures s.running ==> n == s
    ensures n.running && (!s.running ==> n.pending == TickFrame && n.accumulator == 0.0)
  {
    if s.running then s else s.(running := true, accumulator := 0.0, last := now, pending := TickFrame)
  }

  /** After the intended `resume` the next frame ticks, renders and schedules the next tick. */
  lemma IntendedResumeTicks(s: LoopState, t1: real, t2: real, dt: real)
    requires dt > 0.0 && !s.running && t2 >= t1
    ensures var r := FrameStep(ResumeIntended(s, t1), t2, dt);
      r.running && r.pending == TickFrame && |r.renders| == |s.renders| + 1 && Settled(r, dt)
  {
    TickBounds(ResumeIntended(s, t1).(pending := NoFrame), t2, dt);
  }

  /** `FixedStepLoop`. */
  class FixedStepLoop {
    const dt: real
    var accumulator: real
    var last: real
    var running: bool
    var pending: Frame
    var listeners: nat
    var updates: seq<real>
    var renders: seq<real>

    function Value(): LoopState
      reads this
    {
      LoopState(accumulator, last, running, pending, listeners, updates, renders)
    }

    constructor (dt: real)
      ensures this.dt == dt && Value() == Idle
    {
      this.dt := dt;
      accumulator, last, running, pending := 0.0, 0.0, false, NoFrame;
      listeners, updates, renders := 0, [], [];
    }

    /** `start`, at time `now`. */
    method Start(now: real)
      modifies this
      ensures Value() == StartStep(old(Value()), now)
    {
      if running {
        return;
      }
      running := true;
      accumulator := 0.0;
      last := now;
      pending := TickFrame;
      listeners := listeners + 1;
    }

    /** The `tick` callback, at time `now`. */
    method Tick(now: real)
      requires dt > 0.0
      modifies this
      ensures Value() == TickStep(old(Value()), now, dt)
    {
      if !running {
        return;
      }
      var frameTime := FrameTime(now, last, dt);
      last := now;
      accumulator := accumulator + frameTime;
      ghost var start := accumulator;
      ghost var before := updates;
      ghost var k: nat := 0;
      while accumulator >= dt
        invariant Drain(start, dt) == Drained(k + Drain(accumulator, dt).steps, Drain(accumulator, dt).rest)
        invariant updates == before + seq(k, _ => dt)
        invariant renders == old(renders) && last == now && running
        invariant pending == old(pending) && listeners == old(listeners)
        decreases Drain(accumulator, dt).steps
      {
        updates := updates + [dt];
        accumulator := accumulator - dt;
        k := k + 1;
        assert updates == before + seq(k, _ => dt);
      }
      assert Drain(start, dt) == Drained(k, accumulator);
      renders := renders + [Alpha(accumulator, dt)];
      pending := TickFrame;
    }

    /** The browser running the pending animation-frame callback at time `now`. */
    method RunFrame(now: real)
      requires dt > 0.0
      modifies this
      ensures Value() == FrameStep(old(Value()), now, dt)
    {
      var callback := pending;
      pending := NoFrame;
      match callback {
        case NoFrame =>
        case TickFrame => Tick(now);
        case StartFrame => Start(now);
      }
    }

    /** `pause`. */
    method Pause()
      modifies this
      ensures Value() == PauseStep(old(Value()))
    {
      if !running {
        return;
      }
      running := false;
      pending := NoFrame;
    }

    /**
     * `resume`, at time `now`, as written: running and reset, with a call of
     * `start` deferred to the next frame (see `ResumeStalls`).
     */
    method Resume(now: real)
      modifies this
      ensures Value() == ResumeStep(old(Value()), now)
    {
      if running {
        return;
      }
      running := true;
      accumulator := 0.0;
      last := now;
      pending := StartFrame;
    }

    /**
     * `resume` as evidently intended: running and reset, with the tick
     * scheduled directly (see `IntendedResumeTicks`).
     */
    method ResumeCorrected(now: real)
      modifies this
      ensures Value() == ResumeIntended(old(Value()), now)
    {
      if running {
        return;
      }
      running := true;
      accumulator := 0.0;
      last := now;
      pending := TickFrame;
    }
  }
}
