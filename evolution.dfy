/** Value evolution of the sensor-kind driven engine: how `_initialize_machines`
    seeds a sensor and how `_generate_machine_data` advances it by one cycle.
    Every random draw is a parameter: `r` is a result of `random.random()`
    (so `0 <= r < 1`), `bit` the outcome of `random.choice([0, 1])`. */
module Evolution {

  import opened Numeric
  import opened SensorTables

  /** The values a sensor can hold between cycles: 0 or 1 for a binary
      sensor, a value inside its normal range otherwise. */
  predicate InRange(s: SensorType, v: real)
  {
    if IsBinary(s) then v == 0.0 || v == 1.0
    else RangeOf(s).Lo() <= v <= RangeOf(s).Hi()
  }

  /** Initial value of one sensor when a machine is registered. */
  function InitialValue(s: SensorType, r: real, bit: bool): real
  {
    if IsBinary(s) then
      if IsSafety(s) then 1.0 else if bit then 1.0 else 0.0
    else
      Round2(UniformPoint(RangeOf(s), r))
  }

  /** The point of a range that a draw `r` selects, `min + r * (max - min)`. */
  function UniformPoint(rg: Range, r: real): real
  {
    rg.Lo() + r * (rg.Hi() - rg.Lo())
  }

  /** The random-walk increment of a continuous sensor. */
  function Variation(rg: Range, r: real): real
  {
    (r - 0.5) * 0.05 * (rg.Hi() - rg.Lo())
  }

  /** One evolution step of one sensor holding `cur`. */
  function StepValue(s: SensorType, cur: real, r: real): real
  {
    if IsBinary(s) then
      if IsSafety(s) then (if r < 0.01 then 0.0 else 1.0)
      else if r < 0.05 then 1.0 - cur else cur
    else
      var rg := RangeOf(s);
      Round2(Clamp(cur + Variation(rg, r), rg.Lo(), rg.Hi()))
  }

  /** Seeding: safety sensors start safe, other binary sensors start at the
      drawn bit, continuous sensors start inside their range, within half a
      hundredth of the point the draw selects. */
  lemma InitialValueSpec(s: SensorType, r: real, bit: bool)
    requires 0.0 <= r < 1.0
    ensures InRange(s, InitialValue(s, r, bit))
    ensures IsSafety(s) ==> InitialValue(s, r, bit) == 1.0
    ensures IsBinary(s) && !IsSafety(s) ==> (InitialValue(s, r, bit) == 1.0 <==> bit)
    ensures !IsBinary(s) ==>
      var x := UniformPoint(RangeOf(s), r);
      x - 0.005 < InitialValue(s, r, bit) <= x + 0.005
  {
    BinaryRangesHoldBits(s);
    if !IsBinary(s) {
      var rg := RangeOf(s);
      RangeWellFormed(s);
      UniformPointInRange(rg, r);
      assert InitialValue(s, r, bit) == Round2(UniformPoint(rg, r));
    }
  }

  /** The rounded point a draw selects in a range lies in that range. */
  lemma UniformPointInRange(rg: Range, r: real)
    requires rg.lo < rg.hi && 0.0 <= r < 1.0
    ensures var x := UniformPoint(rg, r);
      rg.Lo() <= Round2(x) <= rg.Hi() && x - 0.005 < Round2(x) <= x + 0.005
  {
    var w := rg.Hi() - rg.Lo();
    var x := UniformPoint(rg, r);
    assert x == rg.Lo() + r * w;
    ScaleBelow(r, w);
    assert Cents(rg.lo) <= x <= Cents(rg.hi);
    Round2Bounds(x, rg.lo, rg.hi);
    Round2Near(x);
  }

  /** The increment is at most 2.5% of the range width either way. */
  lemma VariationBound(rg: Range, r: real)
    requires rg.lo < rg.hi && 0.0 <= r < 1.0
    ensures var w := rg.Hi() - rg.Lo();
      -w / 40.0 <= Variation(rg, r) < w / 40.0
  {
    var w := rg.Hi() - rg.Lo();
    var d := (r - 0.5) * w;
    assert Variation(rg, r) == 0.05 * d;
    assert -0.5 * w <= d < 0.5 * w by {
      assert w > 0.0 && r < 1.0;
    }
  }

  /** A value above a sensor's maximum is not one it holds between cycles. */
  lemma AboveRange(s: SensorType, v: real)
    requires v > RangeOf(s).Hi()
    ensures !InRange(s, v)
  {
    BinaryRangesHoldBits(s);
  }

  /** A step never takes a continuous sensor out of its range, whatever
      value it held before, and keeps a binary sensor at 0 or 1. */
  lemma StepInRange(s: SensorType, cur: real, r: real)
    requires IsBinary(s) ==> InRange(s, cur)
    ensures InRange(s, StepValue(s, cur, r))
  {
    if !IsBinary(s) {
      var rg := RangeOf(s);
      RangeWellFormed(s);
      var c := Clamp(cur + Variation(rg, r), rg.Lo(), rg.Hi());
      ClampedInRange(rg, cur + Variation(rg, r));
      assert StepValue(s, cur, r) == Round2(c);
    }
  }

  /** Clamping to a range and rounding stays within the range. */
  lemma ClampedInRange(rg: Range, v: real)
    requires rg.lo < rg.hi
    ensures rg.Lo() <= Round2(Clamp(v, rg.Lo(), rg.Hi())) <= rg.Hi()
  {
    Round2Bounds(Clamp(v, rg.Lo(), rg.Hi()), rg.lo, rg.hi);
  }

  /** From a value inside the range, a continuous sensor moves by at most
      2.5% of the range width plus the rounding error. */
  lemma StepDrift(s: SensorType, cur: real, r: real)
    requires !IsBinary(s) && InRange(s, cur) && 0.0 <= r < 1.0
    ensures var w := RangeOf(s).Hi() - RangeOf(s).Lo();
      cur - w / 40.0 - 0.005 < StepValue(s, cur, r) <= cur + w / 40.0 + 0.005
  {
    var rg := RangeOf(s);
    RangeWellFormed(s);
    VariationBound(rg, r);
    Round2Near(Clamp(cur + Variation(rg, r), rg.Lo(), rg.Hi()));
  }

  /** A safety sensor trips to 0 exactly when the draw is below 0.01 and is
      otherwise forced to 1, whatever value it held. */
  lemma SafetyStep(s: SensorType, cur: real, other: real, r: real)
    requires IsSafety(s)
    ensures StepValue(s, cur, r) == StepValue(s, other, r)
    ensures StepValue(s, cur, r) == 0.0 <==> r < 0.01
    ensures StepValue(s, cur, r) == 1.0 <==> r >= 0.01
  {
    BinaryRangesHoldBits(s);
  }

  /** Any other binary sensor changes state exactly when the draw is below
      0.05, and then toggles. */
  lemma BinaryToggle(s: SensorType, cur: real, r: real)
    requires IsBinary(s) && !IsSafety(s) && InRange(s, cur)
    ensures StepValue(s, cur, r) != cur <==> r < 0.05
    ensures r < 0.05 ==> StepValue(s, cur, r) == 1.0 - cur
  {
  }
}
