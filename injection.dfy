/** The anomaly injector of `SensorSimulator.simulate`: once per cycle, with a
    draw below 0.01, one machine is chosen by weighted choice (weight 3 for a
    machine that already had an anomaly, 1 otherwise), one of its sensors is
    chosen, and that sensor's reported value is replaced by 1.5 times its
    maximum. Machine choice follows CPython's `random.choices`: cumulative
    weights, `random() * total`, and `bisect_right` over the first n - 1
    entries. */
module Injection {

  import opened Numeric
  import opened SensorTables
  import opened Evolution

  /** Sum of a weight list. */
  function Total(w: seq<nat>): nat
  {
    if w == [] then 0 else Total(w[..|w| - 1]) + w[|w| - 1]
  }

  /** Cumulative weight of the first `i` entries: `cum_weights[i - 1]`. */
  function Cum(w: seq<nat>, i: nat): nat
    requires i <= |w|
  {
    Total(w[..i])
  }

  predicate Positive(w: seq<nat>)
  {
    forall i :: 0 <= i < |w| ==> w[i] > 0
  }

  /** The weight of each machine: 3 once it has had an anomaly, else 1. */
  function Weights(ids: seq<string>, events: map<string, nat>): (w: seq<nat>)
    requires forall id :: id in ids ==> id in events
    ensures |w| == |ids| && Positive(w)
    ensures forall i :: 0 <= i < |ids| ==> (w[i] == 3 <==> events[ids[i]] > 0)
  {
    seq(|ids|, i requires 0 <= i < |ids| => if events[ids[i]] > 0 then 3 else 1)
  }

  /** `bisect_right(cum_weights, x, i, hi)`: the first index in [i, hi) whose
      cumulative weight exceeds `x`, or `hi` when there is none. */
  function BisectRight(w: seq<nat>, x: real, i: nat, hi: nat): (j: nat)
    requires i <= hi < |w|
    ensures i <= j <= hi
    decreases hi - i
  {
    if i == hi then hi
    else if Cum(w, i + 1) as real > x then i
    else BisectRight(w, x, i + 1, hi)
  }

  /** `random() * total`, the point that `random.choices` looks up. */
  function DrawPoint(r: real, total: nat): (x: real)
    ensures 0.0 <= r < 1.0 && total > 0 ==> 0.0 <= x < total as real
  {
    if 0.0 <= r < 1.0 && total > 0 then
      ScaleBelow(r, total as real);
      r * total as real
    else
      r * total as real
  }

  /** `random.choices(range(n), weights=w, k=1)[0]` for a draw `r`. */
  function WeightedChoice(w: seq<nat>, r: real): (j: nat)
    requires |w| > 0
    ensures j < |w|
  {
    BisectRight(w, DrawPoint(r, Total(w)), 0, |w| - 1)
  }

  /** `random.choice(xs)` for a list of length `n` and a draw `r`: the index
      `floor(r * n)`. */
  function UniformIndex(n: nat, r: real): (k: nat)
    requires n > 0 && 0.0 <= r < 1.0
    ensures k < n
  {
    var k := (r * n as real).Floor;
    assert 0.0 <= r * n as real < n as real;
    k
  }

  /** `round(max * 1.5, 2)`, the value written over the chosen reading. */
  function InjectedValue(s: SensorType): real
  {
    Round2(RangeOf(s).Hi() * 1.5)
  }

  /** `abnormal_event_count[m] += 1` */
  function Record(events: map<string, nat>, m: string): (e: map<string, nat>)
    requires m in events
  {
    events[m := events[m] + 1]
  }

  /** The outcome of one cycle's injection step. `IndexError` is what
      `random.choices` raises for an empty fleet. */
  datatype Event =
    | NoEvent
    | NoSensors(machine: string)
    | Injected(machine: string, sensor: SensorType, value: real)
    | IndexError

  /** The injection step for draws `fire`, `pick` and `sensorPick`. */
  function InjectionOf(ids: seq<string>, sensorsOf: map<string, seq<SensorType>>,
                       events: map<string, nat>, fire: real, pick: real, sensorPick: real): Event
    requires forall id :: id in ids ==> id in events && id in sensorsOf
    requires 0.0 <= pick < 1.0 && 0.0 <= sensorPick < 1.0
  {
    if fire >= 0.01 then NoEvent
    else if ids == [] then IndexError
    else
      var m := ids[WeightedChoice(Weights(ids, events), pick)];
      var sensors := sensorsOf[m];
      if sensors == [] then NoSensors(m)
      else
        var s := sensors[UniformIndex(|sensors|, sensorPick)];
        Injected(m, s, InjectedValue(s))
  }

  /** The counters after an injection step: only an actual injection counts. */
  function CountEvent(events: map<string, nat>, e: Event): map<string, nat>
  {
    if e.Injected? && e.machine in events then Record(events, e.machine) else events
  }

  lemma {:induction false} TotalPrefix(w: seq<nat>, i: nat)
    requires i < |w|
    ensures Cum(w, i + 1) == Cum(w, i) + w[i]
  {
    assert w[..i + 1][..i] == w[..i];
  }

  lemma {:induction false} CumMonotone(w: seq<nat>, i: nat, j: nat)
    requires Positive(w) && i < j <= |w|
    ensures Cum(w, i) < Cum(w, j)
    decreases j - i
  {
    TotalPrefix(w, j - 1);
    if i < j - 1 {
      CumMonotone(w, i, j - 1);
    }
  }

  /** The search result is the first index past `i` whose cumulative weight
      exceeds `x`; everything it skipped is at most `x`. */
  lemma {:induction false} BisectRightSpec(w: seq<nat>, x: real, i: nat, hi: nat)
    requires i <= hi < |w| && Positive(w)
    requires Cum(w, i) as real <= x
    ensures var j := BisectRight(w, x, i, hi);
      Cum(w, j) as real <= x && (j < hi ==> x < Cum(w, j + 1) as real)
    decreases hi - i
  {
    if i < hi && Cum(w, i + 1) as real <= x {
      BisectRightSpec(w, x, i + 1, hi);
    }
  }

  /** Machine `i` is chosen exactly for the draws `r` with
      `Cum(i) <= r * total < Cum(i + 1)`: an interval of width `w[i] / total`,
      so a machine of weight 3 owns three times the draws of one of weight 1. */
  lemma ChoiceInterval(w: seq<nat>, r: real, i: nat)
    requires |w| > 0 && Positive(w) && 0.0 <= r < 1.0 && i < |w|
    ensures var x := DrawPoint(r, Total(w));
      WeightedChoice(w, r) == i <==> Cum(w, i) as real <= x < Cum(w, i + 1) as real
  {
    TotalPositive(w);
    BisectInterval(w, DrawPoint(r, Total(w)), i);
  }

  lemma TotalPositive(w: seq<nat>)
    requires |w| > 0 && Positive(w)
    ensures Total(w) > 0
  {
    assert w[..|w|] == w;
    CumMonotone(w, 0, |w|);
  }

  lemma BisectInterval(w: seq<nat>, x: real, i: nat)
    requires |w| > 0 && Positive(w) && 0.0 <= x < Total(w) as real && i < |w|
    ensures var j := BisectRight(w, x, 0, |w| - 1);
      j == i <==> Cum(w, i) as real <= x < Cum(w, i + 1) as real
  {
    var n := |w|;
    assert w[..n] == w;
    BisectRightSpec(w, x, 0, n - 1);
    var j := BisectRight(w, x, 0, n - 1);
    assert Cum(w, j) as real <= x < Cum(w, j + 1) as real;
    if j < i {
      if j + 1 < i { CumMonotone(w, j + 1, i); }
    } else if i < j {
      if i + 1 < j { CumMonotone(w, i + 1, j); }
    }
  }

  /** The injected value is exactly half as much again as the sensor's
      maximum, so it lies outside the sensor's normal values. */
  lemma InjectedValueOvershoots(s: SensorType)
    ensures InjectedValue(s) == RangeOf(s).Hi() * 1.5
    ensures InjectedValue(s) > RangeOf(s).Hi()
    ensures !InRange(s, InjectedValue(s))
  {
    InjectedValueExact(s);
    AboveRange(s, InjectedValue(s));
  }

  lemma InjectedValueExact(s: SensorType)
    ensures InjectedValue(s) == RangeOf(s).Hi() * 1.5 > RangeOf(s).Hi()
  {
    RangeHiEven(s);
    HalfAgain(RangeOf(s));
  }

  /** Half as much again of an even, positive number of hundredths is
      itself a whole number of hundredths, so rounding keeps it. */
  lemma HalfAgain(rg: Range)
    requires 0 < rg.hi && rg.hi % 2 == 0
    ensures Round2(rg.Hi() * 1.5) == rg.Hi() * 1.5 > rg.Hi()
  {
    var k := rg.hi / 2 * 3;
    assert rg.Hi() * 1.5 == Cents(k);
    Round2Cents(k);
  }

  /** An injection happens only for a draw below 0.01 and only on a machine
      with sensors; the chosen sensor is one of that machine's. */
  lemma InjectionSpec(ids: seq<string>, sensorsOf: map<string, seq<SensorType>>,
                      events: map<string, nat>, fire: real, pick: real, sensorPick: real)
    requires forall id :: id in ids ==> id in events && id in sensorsOf
    requires 0.0 <= pick < 1.0 && 0.0 <= sensorPick < 1.0
    ensures var e := InjectionOf(ids, sensorsOf, events, fire, pick, sensorPick);
      (e == NoEvent <==> fire >= 0.01) &&
      (e == IndexError <==> fire < 0.01 && ids == []) &&
      (e.Injected? ==> e.machine in ids && e.sensor in sensorsOf[e.machine] &&
                       e.value == InjectedValue(e.sensor) && !InRange(e.sensor, e.value)) &&
      (e.NoSensors? ==> e.machine in ids && sensorsOf[e.machine] == [])
  {
    var e := InjectionOf(ids, sensorsOf, events, fire, pick, sensorPick);
    if e.Injected? {
      InjectedValueOvershoots(e.sensor);
    }
  }

  /** Counting an event adds exactly one to the chosen machine's counter and
      changes no other counter. */
  lemma CountEventSpec(events: map<string, nat>, e: Event)
    requires e.Injected? ==> e.machine in events
    ensures CountEvent(events, e).Keys == events.Keys
    ensures forall m :: m in events ==>
      CountEvent(events, e)[m] == if e.Injected? && m == e.machine then events[m] + 1 else events[m]
  {
  }
}
