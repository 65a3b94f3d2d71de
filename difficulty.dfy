/**
 * The bot difficulty presets: a name, the safety margin `alpha` the bot
 * applies to the corner speed it computes, and the PID gains of its
 * throttle controller.
 */
module Difficulty {
  import opened JsMath

  datatype Pid = Pid(kp: real, ki: real, kd: real)

  datatype Preset = Preset(name: string, alpha: real, pid: Pid)

  /** `DIFFICULTY`, in the order the game lists them. */
  const Presets: seq<Preset> := [
    Preset("Easy", 0.80, Pid(0.5, 0.05, 0.01)),
    Preset("Medium", 0.90, Pid(0.6, 0.10, 0.02)),
    Preset("Hard", 0.96, Pid(0.7, 0.12, 0.03))
  ]

  /** The preset a new bot starts with: `DIFFICULTY[1]`. */
  const DefaultPreset: Preset := Presets[1]

  /** Two names that `toLowerCase` makes equal. */
  predicate SameName(a: string, b: string) {
    ToLower(a) == ToLower(b)
  }

  /** `presets[i]` is the first preset named `name`, ignoring case. */
  predicate FirstMatch(presets: seq<Preset>, name: string, i: int) {
    && 0 <= i < |presets|
    && SameName(presets[i].name, name)
    && forall j :: 0 <= j < i ==> !SameName(presets[j].name, name)
  }

  /**
   * `presets.find(d => d.name.toLowerCase() === name.toLowerCase())`: the
   * first preset whose name matches `name` ignoring case, if any.
   */
  function FindPreset(presets: seq<Preset>, name: string): (p: Option<Preset>)
    ensures p.Some? ==> exists i :: FirstMatch(presets, name, i) && presets[i] == p.value
    ensures p.None? <==> forall i :: 0 <= i < |presets| ==> !SameName(presets[i].name, name)
  {
    if presets == [] then None
    else if SameName(presets[0].name, name) then Some(presets[0])
    else
      var p := FindPreset(presets[1..], name);
      if p.Some? then
        var i :| FirstMatch(presets[1..], name, i) && presets[1..][i] == p.value;
        assert FirstMatch(presets, name, i + 1);
        p
      else p
  }

  /** The table has the three presets Easy, Medium and Hard, in that order. */
  lemma PresetNames()
    ensures |Presets| == 3
    ensures Presets[0].name == "Easy" && Presets[1].name == "Medium" && Presets[2].name == "Hard"
    ensures DefaultPreset.name == "Medium"
  {
  }

  /** No two presets have names that differ only in case, so a lookup can match at most one. */
  lemma NamesDistinctIgnoringCase()
    ensures forall i, j :: 0 <= i < j < |Presets| ==> !SameName(Presets[i].name, Presets[j].name)
  {
    forall i, j | 0 <= i < j < |Presets|
      ensures !SameName(Presets[i].name, Presets[j].name)
    {
      // the lower-cased names already differ in their first letter
      assert ToLower(Presets[i].name)[0] != ToLower(Presets[j].name)[0];
    }
  }

  /** Each name, in any case, selects its own preset. */
  lemma LookupByName(i: nat, name: string)
    requires i < |Presets| && SameName(name, Presets[i].name)
    ensures FindPreset(Presets, name) == Some(Presets[i])
  {
    NamesDistinctIgnoringCase();
    var p := FindPreset(Presets, name);
    assert !p.None?;
    var k :| FirstMatch(Presets, name, k) && Presets[k] == p.value;
    assert SameName(Presets[k].name, Presets[i].name);
    assert k == i;
  }

  /** Every safety margin leaves the bot strictly below the corner speed it estimates. */
  lemma MarginsBelowOne()
    ensures forall i :: 0 <= i < |Presets| ==> 0.0 < Presets[i].alpha < 1.0
  {
  }

  /** Each harder preset drives closer to the limit and reacts more strongly. */
  lemma PresetsEscalate()
    ensures forall i, j :: 0 <= i < j < |Presets| ==>
      && Presets[i].alpha < Presets[j].alpha
      && Presets[i].pid.kp < Presets[j].pid.kp
      && Presets[i].pid.ki < Presets[j].pid.ki
      && Presets[i].pid.kd < Presets[j].pid.kd
  {
  }

  /** All gains are positive. */
  lemma GainsPositive()
    ensures forall i :: 0 <= i < |Presets| ==>
      Presets[i].pid.kp > 0.0 && Presets[i].pid.ki > 0.0 && Presets[i].pid.kd > 0.0
  {
  }
}
