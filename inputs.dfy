/**
 * The human driver's throttle: the keyboard sets a target of 0 or 1, a
 * gamepad's right trigger gives an analogue demand past a deadzone, and the
 * throttle ramps toward the larger of the two at a bounded rate.
 */
module Inputs {
  import opened JsMath

  /** Throttle gained per second while ramping up. */
  const RampUp: real := 1.5
  /** Throttle lost per second while ramping down. */
  const RampDown: real := 2.0
  /** Trigger travel below this is ignored. */
  const Deadzone: real := 0.12
  /** The step `update()` assumes when it is given none, `1 / 120` seconds. */
  const DefaultStep: real := 1.0 / 120.0

  /** A gamepad button: `value` may be missing, `pressed` is a flag. */
  datatype Button = Button(value: Option<real>, pressed: bool)

  /** What the throttle reads from a gamepad; missing `axes` or `buttons` read as empty. */
  datatype Gamepad = Gamepad(index: int, axes: seq<real>, buttons: seq<Button>)

  /** `axes[5] ?? axes[2] ?? 0`: the right trigger axis under the two common mappings. */
  function TriggerAxis(axes: seq<real>): real {
    if |axes| > 5 then axes[5] else if |axes| > 2 then axes[2] else 0.0
  }

  /**
   * `buttons[7]?.value ?? buttons[7]?.pressed ? 1 : 0`. The conditional binds
   * loosest, so the result is always 0 or 1: 1 when the button's value is
   * present and non-zero, or absent with the button pressed.
   */
  function TriggerButton(buttons: seq<Button>): (b: real)
    ensures b == 0.0 || b == 1.0
    ensures b == 1.0 <==> (|buttons| > 7 &&
      if buttons[7].value.Some? then buttons[7].value.value != 0.0 else buttons[7].pressed)
  {
    if |buttons| <= 7 then 0.0
    else
      var b := buttons[7];
      var truthy := if b.value.Some? then b.value.value != 0.0 else b.pressed;
      if truthy then 1.0 else 0.0
  }

  /** `applyDeadzoneAndClamp`: clamp to `[0, 1]`, zero the deadzone, stretch the rest over `[0, 1]`. */
  function ApplyDeadzoneAndClamp(x: real): (t: real)
    ensures 0.0 <= t <= 1.0
    ensures Clamp(x, 0.0, 1.0) < Deadzone ==> t == 0.0
    ensures x >= 1.0 ==> t == 1.0
  {
    var v := Clamp(x, 0.0, 1.0);
    if v < Deadzone then 0.0
    else
      var t := (v - Deadzone) / (1.0 - Deadzone);
      assert (1.0 - Deadzone) * t == v - Deadzone;
      t
  }

  /** A harder press never gives less throttle. */
  lemma DeadzoneMonotone(x: real, y: real)
    requires x <= y
    ensures ApplyDeadzoneAndClamp(x) <= ApplyDeadzoneAndClamp(y)
  {
    ClampMonotone(x, y, 0.0, 1.0);
    var u, v := Clamp(x, 0.0, 1.0), Clamp(y, 0.0, 1.0);
    if u >= Deadzone {
      var k := 1.0 - Deadzone;
      var p, q := (u - Deadzone) / k, (v - Deadzone) / k;
      assert k * p == u - Deadzone && k * q == v - Deadzone;
      if q < p {
        MulMonotone(k, q, p);
      }
    }
  }

  /** Past the deadzone the output covers the whole range: just past its edge it is close to 0. */
  lemma DeadzoneEdge()
    ensures ApplyDeadzoneAndClamp(Deadzone) == 0.0
    ensures ApplyDeadzoneAndClamp(0.56) == 0.5
  {
  }

  /** The throttle a gamepad asks for: the larger of trigger axis and trigger button, shaped. */
  function PadThrottle(pad: Option<Gamepad>): (t: real)
    ensures 0.0 <= t <= 1.0
    ensures pad.None? ==> t == 0.0
    ensures pad.Some? && TriggerButton(pad.value.buttons) == 1.0 ==> t == 1.0
  {
    if pad.None? then 0.0
    else ApplyDeadzoneAndClamp(Max(TriggerAxis(pad.value.axes), TriggerButton(pad.value.buttons)))
  }

  /** `pads[i] || null`: the entry at `i`, or none where the list has no entry. */
  function PadAt(pads: seq<Option<Gamepad>>, i: int): Option<Gamepad> {
    if 0 <= i < |pads| then pads[i] else None
  }

  /** The first connected pad of the list. */
  function FirstPad(pads: seq<Option<Gamepad>>): (p: Option<Gamepad>)
    ensures p.Some? ==> exists i :: 0 <= i < |pads| && pads[i] == p && forall j :: 0 <= j < i ==> pads[j].None?
    ensures p.None? ==> forall i :: 0 <= i < |pads| ==> pads[i].None?
  {
    if pads == [] then None
    else if pads[0].Some? then pads[0]
    else
      var p := FirstPad(pads[1..]);
      if p.Some? then
        var i :| 0 <= i < |pads[1..]| && pads[1..][i] == p && forall j :: 0 <= j < i ==> pads[1..][j].None?;
        assert pads[i + 1] == p;
        p
      else p
  }

  /** `getActiveGamepad`: the held pad's entry if one is held, else the first connected pad. */
  function ActivePad(held: Option<int>, pads: seq<Option<Gamepad>>): Option<Gamepad> {
    if held.Some? then PadAt(pads, held.value) else FirstPad(pads)
  }

  /** `Math.min(1, rate * d)`: the share of the gap closed this tick. */
  function Share(rate: real, d: real): real {
    Min(1.0, rate * d)
  }

  /** `throttle + (desired - throttle) * k`: a share `k` of the way from `throttle` to `desired`. */
  function Toward(throttle: real, desired: real, k: real): real {
    throttle + (desired - throttle) * k
  }

  /** Going part of the way never passes either end. */
  lemma TowardBetween(throttle: real, desired: real, k: real)
    requires 0.0 <= k <= 1.0
    ensures Min(throttle, desired) <= Toward(throttle, desired, k) <= Max(throttle, desired)
  {
    ScaledDown(desired - throttle, k);
  }

  /** The throttle after one tick of ramping from `throttle` toward `desired` over `d` seconds. */
  function Ramp(throttle: real, desired: real, d: real): (t: real)
    ensures 0.0 <= t <= 1.0
  {
    var rate := if desired > throttle then RampUp else RampDown;
    Clamp(Toward(throttle, desired, Share(rate, d)), 0.0, 1.0)
  }

  /** For a non-negative step the ramp lands between where it was and where it was going. */
  lemma RampNoOvershoot(throttle: real, desired: real, d: real)
    requires d >= 0.0 && 0.0 <= desired <= 1.0
    ensures Min(throttle, desired) <= Ramp(throttle, desired, d) <= Max(throttle, desired)
  {
    var rate := if desired > throttle then RampUp else RampDown;
    ShareInUnit(rate, d);
    TowardBetween(throttle, desired, Share(rate, d));
  }

  lemma ShareInUnit(rate: real, d: real)
    requires rate > 0.0 && d >= 0.0
    ensures 0.0 <= Share(rate, d) <= 1.0
  {
    MulMonotoneNonNegative(rate, 0.0, d);
  }

  /** A step long enough to close the whole gap lands on the target. */
  lemma RampReaches(throttle: real, desired: real, d: real)
    requires 0.0 <= desired <= 1.0
    requires RampUp * d >= 1.0 && RampDown * d >= 1.0
    ensures Ramp(throttle, desired, d) == desired
  {
  }

  /** A throttle already at the target stays there. */
  lemma RampAtRest(throttle: real, d: real)
    requires 0.0 <= throttle <= 1.0
    ensures Ramp(throttle, throttle, d) == throttle
  {
  }

  /** `e.key === 'ArrowUp' || e.key.toLowerCase() === 'w'` */
  predicate IsUpKey(key: string) {
    key == "ArrowUp" || ToLower(key) == "w"
  }

  /** `e.key === 'ArrowDown' || e.key.toLowerCase() === 's'` */
  predicate IsDownKey(key: string) {
    key == "ArrowDown" || ToLower(key) == "s"
  }

  /** The up and down keys are different keys, whatever their case. */
  lemma KeysExclusive(key: string)
    ensures !(IsUpKey(key) && IsDownKey(key))
    ensures IsUpKey(key) <==> key in {"ArrowUp", "w", "W"}
    ensures IsDownKey(key) <==> key in {"ArrowDown", "s", "S"}
  {
    if ToLower(key) == "w" || ToLower(key) == "s" {
      assert |key| == 1;
      assert LowerChar(key[0]) == ToLower(key)[0];
      assert key == [key[0]];
    }
  }

  /** `Input`: the throttle, the keyboard target and the gamepad held. */
  class Input {
    var throttle: real
    var target: real
    var gamepadIndex: Option<int>

    /** The keyboard only ever asks for full throttle or none. */
    predicate Valid()
      reads this
    {
      target == 0.0 || target == 1.0
    }

    constructor ()
      ensures Valid()
      ensures throttle == 0.0 && target == 0.0 && gamepadIndex.None?
    {
      throttle := 0.0;
      target := 0.0;
      gamepadIndex := None;
    }

    /** The `keydown` listener: an up key asks for full throttle, a down key for none. */
    method KeyDown(key: string)
      requires Valid()
      modifies this`target
      ensures Valid()
      ensures IsUpKey(key) ==> target == 1.0
      ensures IsDownKey(key) ==> target == 0.0
      ensures !IsUpKey(key) && !IsDownKey(key) ==> target == old(target)
    {
      if IsUpKey(key) {
        target := 1.0;
      }
      if IsDownKey(key) {
        target := 0.0;
      }
    }

    /** The `keyup` listener: releasing an up key lets go of the throttle. */
    method KeyUp(key: string)
      requires Valid()
      modifies this`target
      ensures Valid()
      ensures IsUpKey(key) ==> target == 0.0
      ensures !IsUpKey(key) ==> target == old(target)
    {
      if IsUpKey(key) {
        target := 0.0;
      }
    }

    /** The `gamepadconnected` listener: the first pad connected is the one held. */
    method GamepadConnected(index: int)
      modifies this`gamepadIndex
      ensures gamepadIndex == (if old(gamepadIndex).None? then Some(index) else old(gamepadIndex))
    {
      if gamepadIndex.None? {
        gamepadIndex := Some(index);
      }
    }

    /** The `gamepaddisconnected` listener: the held pad is let go when it is the one removed. */
    method GamepadDisconnected(index: int)
      modifies this`gamepadIndex
      ensures gamepadIndex == (if old(gamepadIndex) == Some(index) then None else old(gamepadIndex))
    {
      if gamepadIndex == Some(index) {
        gamepadIndex := None;
      }
    }

    /**
     * `update`: polls the pads, takes the larger of keyboard target and pad
     * throttle and ramps toward it over `dt` seconds, `1 / 120` when not given.
     */
    method Update(dt: Option<real>, pads: seq<Option<Gamepad>>)
      requires Valid()
      modifies this`throttle
      ensures Valid()
      ensures throttle == Ramp(old(throttle), Max(target, PadThrottle(ActivePad(gamepadIndex, pads))), dt.GetOr(DefaultStep))
      ensures 0.0 <= throttle <= 1.0
      ensures dt.GetOr(DefaultStep) >= 0.0 ==>
        var desired := Max(target, PadThrottle(ActivePad(gamepadIndex, pads)));
        Min(old(throttle), desired) <= throttle <= Max(old(throttle), desired)
    {
      var d := dt.GetOr(DefaultStep);
      var gp := GetActiveGamepad(pads);
      var gpThrottle := 0.0;
      if gp.Some? {
        var raw := Max(TriggerAxis(gp.value.axes), TriggerButton(gp.value.buttons));
        gpThrottle := ApplyDeadzoneAndClamp(raw);
      }
      var desired := Max(target, gpThrottle);
      var rate := if desired > throttle then RampUp else RampDown;
      if d >= 0.0 {
        RampNoOvershoot(throttle, desired, d);
      }
      throttle := Toward(throttle, desired, Share(rate, d));
      throttle := Clamp(throttle, 0.0, 1.0);
    }

    /** `getActiveGamepad`: the held pad's entry, or a scan for the first connected pad. */
    method GetActiveGamepad(pads: seq<Option<Gamepad>>) returns (pad: Option<Gamepad>)
      ensures pad == ActivePad(gamepadIndex, pads)
    {
      if gamepadIndex.Some? {
        return PadAt(pads, gamepadIndex.value);
      }
      for i := 0 to |pads|
        invariant forall j :: 0 <= j < i ==> pads[j].None?
        invariant FirstPad(pads) == FirstPad(pads[i..])
      {
        if pads[i].Some? {
          return pads[i];
        }
        assert pads[i..][1..] == pads[i + 1..];
      }
      return None;
    }
  }
}
