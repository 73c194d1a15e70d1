/** The older, object-per-sensor engine: every `VirtualSensor` keeps its own
    value and drifts it by a random percentage on each reading; a machine is
    a fixed list of such sensors, chosen by its class; `VirtualSensorSimulator`
    builds machines from a count per machine type and collects one telemetry
    record per machine per cycle. Draws of `random.uniform` and the clock are
    parameters; the connector records the `send_telemetry` calls. */
module VirtualSensors {

  import opened Wrappers
  import opened Numeric
  import opened Decimal
  import opened MachineType

  /** `random.uniform(a, b)` for the draw `r` of `random.random()`. */
  function Uniform(a: real, b: real, r: real): real
  {
    a + (b - a) * r
  }

  /** The drift `random.uniform(-0.05, 0.05)` for the draw `r`. */
  function Drift(r: real): real
  {
    Uniform(-0.05, 0.05, r)
  }

  /** One `VirtualSensor(f"{machine_id}_<suffix>", kind, lo, hi, unit)` of a
      machine class. */
  datatype SensorSpec = SensorSpec(suffix: string, kind: string, lo: int, hi: int, unit: string)

  /** The fields of one `VirtualSensor`. */
  datatype SensorState = SensorState(id: string, kind: string, lo: real, hi: real, unit: string, current: real)

  /** What `get_reading` returns. */
  datatype Reading = Reading(sensorId: string, kind: string, value: real, unit: string, timestamp: int)

  /** One entry of the `sensors` map of a telemetry record. */
  datatype Entry = Entry(value: real, unit: string)

  /** What `get_telemetry` returns (without operating hours and installation
      date). */
  datatype Telemetry = Telemetry(machineId: string, machineType: string, operationalStatus: bool,
                                 maintenanceMode: bool, sensors: map<string, Entry>)

  /** The sensor after one `get_reading` with drift `d`: the value scaled by
      `1 + d`, then held between the bounds. */
  function Drifted(s: SensorState, d: real): SensorState
  {
    s.(current := Clamp(s.current * (1.0 + d), s.lo, s.hi))
  }

  /** The reading reported for sensor `s` at time `now`. */
  function ReadingOf(s: SensorState, now: int): Reading
  {
    Reading(s.id, s.kind, Round2(s.current), s.unit, now)
  }

  /** The telemetry entry reported for sensor `s`. */
  function EntryOf(s: SensorState): Entry
  {
    Entry(Round2(s.current), s.unit)
  }

  /** Every sensor of a machine after one `get_telemetry`. */
  function DriftAll(states: seq<SensorState>, draws: seq<Draw>): (r: seq<SensorState>)
    requires |draws| == |states|
    ensures |r| == |states|
  {
    seq(|states|, k requires 0 <= k < |states| => Drifted(states[k], Drift(draws[k])))
  }

  /** The `sensors` map of `get_telemetry`, filled in list order: a later
      sensor with the same id overwrites an earlier one. */
  function SensorMap(states: seq<SensorState>): map<string, Entry>
  {
    if states == [] then map[]
    else
      var last := states[|states| - 1];
      SensorMap(states[..|states| - 1])[last.id := EntryOf(last)]
  }

  /** The map over one more sensor is the earlier map with that sensor's
      entry written in. */
  lemma SensorMapStep(states: seq<SensorState>, i: nat)
    requires i < |states|
    ensures SensorMap(states[..i + 1]) == SensorMap(states[..i])[states[i].id := EntryOf(states[i])]
  {
    assert states[..i + 1][..i] == states[..i];
  }

  function Ids(states: seq<SensorState>): (ids: seq<string>)
    ensures |ids| == |states|
  {
    seq(|states|, k requires 0 <= k < |states| => states[k].id)
  }

  /** The sensor is within its bounds. */
  predicate Within(s: SensorState)
  {
    s.lo <= s.current <= s.hi
  }

  function Abs(x: real): real { if x < 0.0 then -x else x }

  /** Appending keeps a list duplicate-free exactly when the new element is
      not in it yet. */
  lemma NoDuplicatesSnoc<T>(xs: seq<T>, x: T)
    ensures NoDuplicates(xs + [x]) <==> NoDuplicates(xs) && x !in xs
  {
    var ys := xs + [x];
    if x in xs {
      var k :| 0 <= k < |xs| && xs[k] == x;
      assert ys[k] == ys[|xs|];
    }
    if NoDuplicates(ys) {
      forall i, j | 0 <= i < j < |xs|
        ensures xs[i] != xs[j]
      {
        assert ys[i] == xs[i] && ys[j] == xs[j];
      }
    }
  }

  class VirtualSensor {
    var sensorId: string
    var sensorType: string
    var minValue: real
    var maxValue: real
    var unit: string
    var currentValue: real

    function State(): SensorState
      reads this
    {
      SensorState(sensorId, sensorType, minValue, maxValue, unit, currentValue)
    }

    /** A new sensor starts at `random.uniform(min_value, max_value)` for the
        draw `r`. */
    constructor (id: string, kind: string, lo: real, hi: real, unit: string, r: Draw)
      ensures State() == SensorState(id, kind, lo, hi, unit, Uniform(lo, hi, r))
    {
      sensorId, sensorType, minValue, maxValue := id, kind, lo, hi;
      this.unit := unit;
      currentValue := Uniform(lo, hi, r);
    }

    /** `get_reading` for the drift draw `r` at time `now`: the stored value
        drifts and is clamped, unrounded; the reading reports it rounded. */
    method GetReading(r: Draw, now: int) returns (reading: Reading)
      modifies this
      ensures State() == Drifted(old(State()), Drift(r))
      ensures reading == ReadingOf(State(), now)
    {
      var drift := Uniform(-0.05, 0.05, r);
      currentValue := currentValue * (1.0 + drift);
      currentValue := Max(Min(currentValue, maxValue), minValue);
      reading := Reading(sensorId, sensorType, Round2(currentValue), unit, now);
    }
  }

  /** A uniform draw lies between its bounds. */
  lemma UniformWithin(a: real, b: real, r: Draw)
    requires a <= b
    ensures a <= Uniform(a, b, r) <= b
  {
    var w, q := b - a, 1.0 - r;
    assert w * r >= 0.0;
    assert w - w * r == w * q;
    assert q > 0.0 && w >= 0.0;
    NonNegative(w, q);
  }

  lemma NonNegative(x: real, y: real)
    requires x >= 0.0 && y >= 0.0
    ensures x * y >= 0.0
  {
  }

  /** A drift is at most five per cent either way. */
  lemma DriftBounds(r: Draw)
    ensures -0.05 <= Drift(r) <= 0.05
  {
    UniformWithin(-0.05, 0.05, r);
  }

  /** A reading keeps a sensor within its bounds, whatever its value was
      before, and changes nothing but the value. */
  lemma DriftedWithin(s: SensorState, d: real)
    requires s.lo <= s.hi
    ensures var t := Drifted(s, d);
      Within(t) && t.id == s.id && t.kind == s.kind && t.lo == s.lo && t.hi == s.hi && t.unit == s.unit
  {
  }

  /** From within the bounds, a reading moves the stored value by at most
      the drift's share of it: clamping only pulls it back towards where it
      was. */
  lemma DriftedNear(s: SensorState, d: real)
    requires Within(s) && -0.05 <= d <= 0.05
    ensures Abs(Drifted(s, d).current - s.current) <= 0.05 * Abs(s.current)
  {
    ClampScaledNear(s.current, d, s.lo, s.hi);
  }

  lemma ClampScaledNear(c: real, d: real, lo: real, hi: real)
    requires lo <= c <= hi && -0.05 <= d <= 0.05
    ensures Abs(Clamp(c * (1.0 + d), lo, hi) - c) <= 0.05 * Abs(c)
  {
    ClampTowards(c, c * (1.0 + d), lo, hi);
    ScaledNear(c, d);
  }

  /** Clamping into bounds that hold `c` brings `v` no further from `c`. */
  lemma ClampTowards(c: real, v: real, lo: real, hi: real)
    requires lo <= c <= hi
    ensures Abs(Clamp(v, lo, hi) - c) <= Abs(v - c)
  {
  }

  lemma ScaledNear(c: real, d: real)
    requires -0.05 <= d <= 0.05
    ensures Abs(c * (1.0 + d) - c) <= 0.05 * Abs(c)
  {
    assert c * (1.0 + d) - c == c * d;
    if c >= 0.0 {
      assert -0.05 * c <= c * d <= 0.05 * c;
    } else {
      assert 0.05 * c <= c * d <= -0.05 * c;
    }
  }

  /** One `get_telemetry` keeps every sensor's id, leaves every sensor
      within its bounds, and moves a value that was within its bounds by at
      most five per cent of it. */
  lemma DriftAllSpec(states: seq<SensorState>, draws: seq<Draw>)
    requires |draws| == |states|
    ensures var r := DriftAll(states, draws);
      Ids(r) == Ids(states) &&
      (forall k :: 0 <= k < |states| && states[k].lo <= states[k].hi ==> Within(r[k])) &&
      forall k :: 0 <= k < |states| && Within(states[k]) ==>
        Abs(r[k].current - states[k].current) <= 0.05 * Abs(states[k].current)
  {
    var r := DriftAll(states, draws);
    forall k | 0 <= k < |states|
      ensures r[k].id == states[k].id
      ensures states[k].lo <= states[k].hi ==> Within(r[k])
      ensures Within(states[k]) ==> Abs(r[k].current - states[k].current) <= 0.05 * Abs(states[k].current)
    {
      DriftBounds(draws[k]);
      if states[k].lo <= states[k].hi {
        DriftedWithin(states[k], Drift(draws[k]));
      }
      if Within(states[k]) {
        DriftedNear(states[k], Drift(draws[k]));
      }
    }
  }

  /** A reading echoes the sensor's id, type and unit, and reports its value
      to within half a hundredth, never outside whole-number bounds. */
  lemma ReadingSpec(s: SensorState, now: int, lo: int, hi: int)
    requires s.lo == lo as real && s.hi == hi as real && Within(s)
    ensures var rd := ReadingOf(s, now);
      rd.sensorId == s.id && rd.kind == s.kind && rd.unit == s.unit && rd.timestamp == now &&
      s.current - 0.005 < rd.value <= s.current + 0.005 && lo as real <= rd.value <= hi as real
  {
    Round2Near(s.current);
    assert Cents(lo * 100) == lo as real && Cents(hi * 100) == hi as real;
    Round2Bounds(s.current, lo * 100, hi * 100);
  }

  /** The `sensors` map has one key per sensor id, and when the ids are
      distinct each sensor's entry is its own reading. */
  lemma {:induction false} SensorMapSpec(states: seq<SensorState>)
    ensures forall id :: id in SensorMap(states) ==> id in Ids(states)
    ensures forall k :: 0 <= k < |states| ==> states[k].id in SensorMap(states)
    ensures NoDuplicates(Ids(states)) ==>
      forall k :: 0 <= k < |states| ==> SensorMap(states)[states[k].id] == EntryOf(states[k])
  {
    if states != [] {
      var n := |states| - 1;
      var init := states[..n];
      SensorMapSpec(init);
      assert Ids(states) == Ids(init) + [states[n].id];
      if NoDuplicates(Ids(states)) {
        assert NoDuplicates(Ids(init)) by {
          forall i, j | 0 <= i < j < |Ids(init)|
            ensures Ids(init)[i] != Ids(init)[j]
          {
            assert Ids(init)[i] == Ids(states)[i] && Ids(init)[j] == Ids(states)[j];
          }
        }
        forall k | 0 <= k < |states|
          ensures SensorMap(states)[states[k].id] == EntryOf(states[k])
        {
          if k < n {
            assert Ids(states)[k] != Ids(states)[n];
            assert init[k] == states[k];
          }
        }
      }
    }
  }

  /** After one `get_telemetry` of sensors with distinct ids, the `sensors`
      map has exactly those ids as keys, each holding its sensor's new value
      rounded to two places and its unit. */
  lemma CycleTelemetry(states: seq<SensorState>, draws: seq<Draw>)
    requires |draws| == |states| && NoDuplicates(Ids(states))
    ensures var r := DriftAll(states, draws);
      (forall id :: id in SensorMap(r) <==> id in Ids(states)) &&
      forall k :: 0 <= k < |states| ==>
        states[k].id in SensorMap(r) &&
        SensorMap(r)[states[k].id] == Entry(Round2(r[k].current), states[k].unit)
  {
    var r := DriftAll(states, draws);
    DriftAllSpec(states, draws);
    SensorMapSpec(r);
    forall id | id in Ids(states)
      ensures id in SensorMap(r)
    {
      var k :| 0 <= k < |states| && Ids(states)[k] == id;
      assert r[k].id == id;
    }
    forall k | 0 <= k < |states|
      ensures r[k].id == states[k].id && r[k].unit == states[k].unit
    {
      assert Ids(r)[k] == Ids(states)[k];
    }
  }

  const MIXER_SPECS: seq<SensorSpec> := [
    SensorSpec("rtd", "RTD_PT100", 20, 100, "°C"),
    SensorSpec("thermocouple", "Thermocouple_K_Type", 20, 100, "°C"),
    SensorSpec("infrared", "Infrared_Temperature", 25, 95, "°C"),
    SensorSpec("piezo", "Piezoelectric_Accelerometer", 0, 25, "mm/s"),
    SensorSpec("encoder", "Rotary_Encoder", 0, 1000, "RPM"),
    SensorSpec("gyro", "Gyroscope", -10, 10, "deg/s"),
    SensorSpec("mic", "Industrial_Microphone", 60, 95, "dB"),
    SensorSpec("cap_level", "Capacitive_Level", 0, 100, "%"),
    SensorSpec("ultra_level", "Ultrasonic_Level", 0, 100, "%"),
    SensorSpec("current", "Current_Transformer", 0, 100, "A"),
    SensorSpec("power", "Power_Meter", 0, 200, "kW")
  ]

  const CNC_SPECS: seq<SensorSpec> := [
    SensorSpec("rtd", "RTD_PT100", 20, 90, "°C"),
    SensorSpec("thermocouple", "Thermocouple_J_Type", 20, 90, "°C"),
    SensorSpec("thermal", "Thermal_Imaging", 25, 85, "°C"),
    SensorSpec("mems", "MEMS_Accelerometer", 0, 20, "mm/s"),
    SensorSpec("proximity", "Proximity_Probe", 0, 10, "mm"),
    SensorSpec("strain", "Strain_Gauge", 0, 1000, "μm/m"),
    SensorSpec("linear", "Linear_Encoder", 0, 1000, "mm"),
    SensorSpec("absolute", "Absolute_Encoder", 0, 360, "deg"),
    SensorSpec("lvdt", "LVDT", -10, 10, "mm"),
    SensorSpec("pressure", "Pressure_Transducer", 0, 100, "bar"),
    SensorSpec("flow", "Electromagnetic_Flow", 0, 50, "L/min"),
    SensorSpec("diff_pressure", "Differential_Pressure", -10, 10, "bar"),
    SensorSpec("float", "Float_Level_Switch", 0, 100, "%"),
    SensorSpec("cap_level", "Capacitive_Level", 0, 100, "%"),
    SensorSpec("laser", "Laser_Distance", 0, 1000, "mm"),
    SensorSpec("photoelectric", "Photoelectric", 0, 1, "binary"),
    SensorSpec("acoustic", "Acoustic_Emission", 70, 95, "dB")
  ]

  const PRESS_SPECS: seq<SensorSpec> := [
    SensorSpec("strain_pressure", "Strain_Gauge_Pressure", 0, 300, "bar"),
    SensorSpec("piezo_pressure", "Piezoelectric_Pressure", 0, 300, "bar"),
    SensorSpec("bourdon", "Bourdon_Tube_Gauge", 0, 300, "bar"),
    SensorSpec("rtd", "RTD_PT100", 20, 80, "°C"),
    SensorSpec("thermistor", "Thermistor", 20, 80, "°C"),
    SensorSpec("bimetallic", "Bimetallic_Temperature", 20, 80, "°C"),
    SensorSpec("lvdt", "LVDT", 0, 500, "mm"),
    SensorSpec("magnetostrictive", "Magnetostrictive_Position", 0, 500, "mm"),
    SensorSpec("limit", "Limit_Switch", 0, 1, "binary"),
    SensorSpec("load_cell", "Load_Cell", 0, 50000, "kg"),
    SensorSpec("strain", "Strain_Gauge", 0, 1000, "μm/m"),
    SensorSpec("piezo_force", "Piezoelectric_Force", 0, 50000, "N"),
    SensorSpec("accelerometer", "Industrial_Accelerometer", 0, 30, "mm/s"),
    SensorSpec("velocity", "Velocity_Sensor", 0, 100, "mm/s")
  ]

  const CONVEYOR_SPECS: seq<SensorSpec> := [
    SensorSpec("tacho", "Tachometer_Generator", 0, 300, "RPM"),
    SensorSpec("hall", "Hall_Effect", 0, 300, "RPM"),
    SensorSpec("encoder", "Incremental_Encoder", 0, 300, "RPM"),
    SensorSpec("photoelectric", "Photoelectric", 0, 1, "binary"),
    SensorSpec("inductive", "Inductive_Proximity", 0, 1, "binary"),
    SensorSpec("laser", "Laser_Scanner", 0, 1000, "mm"),
    SensorSpec("ultrasonic", "Ultrasonic", 0, 1000, "mm"),
    SensorSpec("belt_scale", "Belt_Scale_Load_Cell", 0, 5000, "kg"),
    SensorSpec("strain", "Strain_Gauge", 0, 1000, "μm/m"),
    SensorSpec("emergency", "Emergency_Stop", 0, 1, "binary"),
    SensorSpec("light_curtain", "Light_Curtain", 0, 1, "binary"),
    SensorSpec("safety_mat", "Safety_Mat", 0, 1, "binary")
  ]

  const PUMP_SPECS: seq<SensorSpec> := [
    SensorSpec("electromagnetic", "Electromagnetic_Flow", 0, 100, "L/min"),
    SensorSpec("turbine", "Turbine_Flow", 0, 100, "L/min"),
    SensorSpec("ultrasonic", "Ultrasonic_Flow", 0, 100, "L/min"),
    SensorSpec("bourdon", "Bourdon_Pressure", 0, 10, "bar"),
    SensorSpec("diaphragm", "Diaphragm_Pressure", 0, 10, "bar"),
    SensorSpec("differential", "Differential_Pressure", -1, 1, "bar"),
    SensorSpec("radar", "Radar_Level", 0, 100, "%"),
    SensorSpec("hydrostatic", "Hydrostatic_Level", 0, 100, "%"),
    SensorSpec("float", "Float_Level_Switch", 0, 1, "binary"),
    SensorSpec("rtd", "RTD_PT100", 20, 60, "°C"),
    SensorSpec("thermowell", "Thermowell", 20, 60, "°C"),
    SensorSpec("accelerometer", "Accelerometer", 0, 20, "mm/s"),
    SensorSpec("proximity", "Proximity_Probe", 0, 10, "mm")
  ]

  /** `machine_map` of the factory: the sensors the class registered for a
      machine type name attaches, or `None` for a name it does not know. */
  function MachineClass(machineType: string): (r: Option<seq<SensorSpec>>)
    ensures r.Some? <==> machineType in MACHINE_KINDS
  {
    if machineType == MIXER then Some(MIXER_SPECS)
    else if machineType == CNC_MACHINE then Some(CNC_SPECS)
    else if machineType == HYDRAULIC_PRESS then Some(PRESS_SPECS)
    else if machineType == CONVEYOR_SYSTEM then Some(CONVEYOR_SPECS)
    else if machineType == PUMP_SYSTEM then Some(PUMP_SPECS)
    else None
  }

  function Suffixes(specs: seq<SensorSpec>): (r: seq<string>)
    ensures |r| == |specs|
  {
    seq(|specs|, k requires 0 <= k < |specs| => specs[k].suffix)
  }

  /** Every sensor of a machine class has bounds in the right order, a
      binary sensor spans exactly 0 to 1, and no id suffix repeats. */
  predicate WellFormedClass(specs: seq<SensorSpec>)
  {
    NoDuplicates(Suffixes(specs)) &&
    forall k :: 0 <= k < |specs| ==> specs[k].lo < specs[k].hi && (specs[k].unit == "binary" ==> specs[k].lo == 0 && specs[k].hi == 1)
  }

  /** The sensors of a new machine `machineId` built from `specs`, the k-th
      starting at `random.uniform(lo, hi)` for the draw `draw(k)`. */
  function InitialStates(machineId: string, specs: seq<SensorSpec>, draw: nat -> Draw): (r: seq<SensorState>)
    ensures |r| == |specs|
  {
    seq(|specs|, k requires 0 <= k < |specs| =>
      SensorState(machineId + "_" + specs[k].suffix, specs[k].kind, specs[k].lo as real, specs[k].hi as real,
                  specs[k].unit, Uniform(specs[k].lo as real, specs[k].hi as real, draw(k))))
  }

  /** The machine classes attach 11, 17, 14, 12 and 13 sensors, and each
      class is well formed. */
  lemma MachineClasses(machineType: string)
    requires machineType in MACHINE_KINDS
    ensures var specs := MachineClass(machineType).value;
      WellFormedClass(specs) &&
      |specs| == (if machineType == MIXER then 11 else if machineType == CNC_MACHINE then 17
                  else if machineType == HYDRAULIC_PRESS then 14 else if machineType == CONVEYOR_SYSTEM then 12 else 13)
  {
    if machineType == MIXER {
      MixerClass();
    } else if machineType == CNC_MACHINE {
      CncClass();
    } else if machineType == HYDRAULIC_PRESS {
      PressClass();
    } else if machineType == CONVEYOR_SYSTEM {
      ConveyorClass();
    } else {
      PumpClass();
    }
  }

  lemma MixerClass() ensures WellFormedClass(MIXER_SPECS) && |MIXER_SPECS| == 11 { }
  lemma CncClass() ensures WellFormedClass(CNC_SPECS) && |CNC_SPECS| == 17 { }
  lemma PressClass() ensures WellFormedClass(PRESS_SPECS) && |PRESS_SPECS| == 14 { }
  lemma ConveyorClass() ensures WellFormedClass(CONVEYOR_SPECS) && |CONVEYOR_SPECS| == 12 { }
  lemma PumpClass() ensures WellFormedClass(PUMP_SPECS) && |PUMP_SPECS| == 13 { }

  /** A new machine of a well-formed class starts with every sensor within
      its bounds and with distinct sensor ids `<machine_id>_<suffix>`. */
  lemma InitialStatesSpec(machineId: string, specs: seq<SensorSpec>, draw: nat -> Draw)
    requires WellFormedClass(specs)
    ensures var st := InitialStates(machineId, specs, draw);
      NoDuplicates(Ids(st)) && forall k :: 0 <= k < |st| ==> Within(st[k])
  {
    var st := InitialStates(machineId, specs, draw);
    forall k | 0 <= k < |st|
      ensures Within(st[k])
    {
      UniformWithin(specs[k].lo as real, specs[k].hi as real, draw(k));
    }
    forall i, j | 0 <= i < j < |st|
      ensures Ids(st)[i] != Ids(st)[j]
    {
      var p := machineId + "_";
      assert Suffixes(specs)[i] != Suffixes(specs)[j];
      assert (p + specs[i].suffix)[|p|..] == specs[i].suffix;
      assert (p + specs[j].suffix)[|p|..] == specs[j].suffix;
    }
  }

  class Machine {
    var machineId: string
    var machineType: string
    var sensors: seq<VirtualSensor>
    var operationalStatus: bool
    var maintenanceMode: bool

    /** No sensor object is attached twice. */
    ghost predicate Valid()
      reads this
    {
      NoDuplicates(sensors)
    }

    function States(): (r: seq<SensorState>)
      reads this, sensors
      ensures |r| == |sensors|
    {
      seq(|sensors|, k reads this, sensors requires 0 <= k < |sensors| => sensors[k].State())
    }

    /** The record `get_telemetry` returns once the sensors are in `states`. */
    function TelemetryOf(states: seq<SensorState>): Telemetry
      reads this
    {
      Telemetry(machineId, machineType, operationalStatus, maintenanceMode, SensorMap(states))
    }

    /** `MachineSimulator(machine_id, machine_type)`: running, not in
        maintenance, no sensors yet. */
    constructor (id: string, kind: string)
      ensures machineId == id && machineType == kind && sensors == []
      ensures operationalStatus && !maintenanceMode && Valid()
    {
      machineId, machineType, sensors := id, kind, [];
      operationalStatus, maintenanceMode := true, false;
    }

    /** `add_sensor`: the sensor goes at the end of the list. */
    method AddSensor(s: VirtualSensor)
      modifies this
      ensures sensors == old(sensors) + [s]
      ensures machineId == old(machineId) && machineType == old(machineType)
      ensures operationalStatus == old(operationalStatus) && maintenanceMode == old(maintenanceMode)
      ensures Valid() <==> old(Valid()) && s !in old(sensors)
    {
      NoDuplicatesSnoc(sensors, s);
      sensors := sensors + [s];
    }

    /** `get_telemetry`, with `draws[k]` the drift draw of the k-th sensor:
        every sensor is read once, in order, and the record maps each
        sensor id to its rounded value and unit. */
    method GetTelemetry(draws: seq<Draw>, now: int) returns (t: Telemetry)
      requires Valid() && |draws| == |sensors|
      modifies sensors
      ensures States() == DriftAll(old(States()), draws)
      ensures t == TelemetryOf(States())
    {
      ghost var before := States();
      ghost var after := DriftAll(before, draws);
      var readings: map<string, Entry> := map[];
      var i := 0;
      while i < |sensors|
        invariant 0 <= i <= |sensors|
        invariant forall k :: 0 <= k < i ==> sensors[k].State() == after[k]
        invariant forall k :: i <= k < |sensors| ==> sensors[k].State() == before[k]
        invariant readings == SensorMap(after[..i])
      {
        var sensor := sensors[i];
        var reading := sensor.GetReading(draws[i], now);
        assert sensor.State() == after[i];
        SensorMapStep(after, i);
        readings := readings[sensor.sensorId := Entry(reading.value, reading.unit)];
        i := i + 1;
      }
      assert after[..i] == after;
      t := Telemetry(machineId, machineType, operationalStatus, maintenanceMode, readings);
    }
  }

  /** One of the machine classes' constructors: a machine of type
      `machineType` with the sensors of `specs` attached in order, the k-th
      starting from the draw `draw(k)`. */
  method NewMachine(machineId: string, machineType: string, specs: seq<SensorSpec>, draw: nat -> Draw)
    returns (m: Machine)
    ensures fresh(m) && fresh(m.sensors) && m.Valid()
    ensures m.machineId == machineId && m.machineType == machineType
    ensures m.operationalStatus && !m.maintenanceMode
    ensures m.States() == InitialStates(machineId, specs, draw)
  {
    m := new Machine(machineId, machineType);
    var i := 0;
    while i < |specs|
      invariant 0 <= i <= |specs| && |m.sensors| == i
      invariant fresh(m) && fresh(m.sensors) && m.Valid()
      invariant m.machineId == machineId && m.machineType == machineType
      invariant m.operationalStatus && !m.maintenanceMode
      invariant m.States() == InitialStates(machineId, specs, draw)[..i]
    {
      var sp := specs[i];
      var s := new VirtualSensor(machineId + "_" + sp.suffix, sp.kind, sp.lo as real, sp.hi as real, sp.unit, draw(i));
      m.AddSensor(s);
      i := i + 1;
    }
  }

  /** `MachineSimulationFactory.create_machine`: a new machine for one of
      the five machine type names, nothing otherwise. */
  method CreateMachine(machineType: string, machineId: string, draw: nat -> Draw) returns (r: Option<Machine>)
    ensures r.Some? <==> machineType in MACHINE_KINDS
    ensures r.Some? ==>
      var m := r.value;
      fresh(m) && fresh(m.sensors) && m.Valid() && m.machineId == machineId && m.machineType == machineType &&
      m.operationalStatus && !m.maintenanceMode &&
      m.States() == InitialStates(machineId, MachineClass(machineType).value, draw)
  {
    var specs := MachineClass(machineType);
    if specs.Some? {
      var m := NewMachine(machineId, machineType, specs.value, draw);
      r := Some(m);
    } else {
      r := None;
    }
  }

  /** `m` is the machine the factory makes for `machineType` and
      `machineId`: one of the five classes, running, not in maintenance, with
      that class's sensors in their initial states for the draws `draw`. */
  ghost predicate FactoryMade(m: Machine, machineType: string, machineId: string, draw: nat -> Draw)
    reads m, m.sensors
  {
    machineType in MACHINE_KINDS && m.machineType == machineType && m.machineId == machineId &&
    m.operationalStatus && !m.maintenanceMode &&
    m.States() == InitialStates(machineId, MachineClass(machineType).value, draw)
  }

  /** Every machine of `ms` is the factory's machine for its own type and
      id, made with the draws `draw` of that id. */
  ghost predicate AllFactoryMade(ms: seq<Machine>, draw: string -> nat -> Draw)
    reads ms, set k, j | 0 <= k < |ms| && 0 <= j < |ms[k].sensors| :: ms[k].sensors[j]
  {
    forall k :: 0 <= k < |ms| ==>
      FactoryMade(ms[k], ms[k].machineType, ms[k].machineId, draw(ms[k].machineId))
  }

  lemma AllFactoryMadeAppend(ms: seq<Machine>, more: seq<Machine>, draw: string -> nat -> Draw)
    requires AllFactoryMade(ms, draw) && AllFactoryMade(more, draw)
    ensures AllFactoryMade(ms + more, draw)
  {
    var all := ms + more;
    assert forall k :: 0 <= k < |ms| ==> all[k] == ms[k];
    assert forall k :: |ms| <= k < |all| ==> all[k] == more[k - |ms|];
  }

  /** `generate_machine_id`: the prefix, an underscore and the index
      zero-padded to six digits. */
  function GenerateMachineId(prefix: string, index: nat): string
  {
    PaddedId(prefix, index, 6)
  }

  /** The machines `create_machines` adds for one `(machine_type, count)`
      item, as (type, id) pairs: ids with indices 0 to count - 1, or none
      for a type the factory rejects. */
  function KindRoster(machineType: string, count: int): (r: seq<(string, string)>)
    ensures |r| == if machineType in MACHINE_KINDS && count > 0 then count else 0
  {
    if machineType !in MACHINE_KINDS || count <= 0 then []
    else seq(count, i requires 0 <= i < count => (machineType, GenerateMachineId(machineType, i)))
  }

  lemma KindRosterStep(machineType: string, i: nat)
    requires machineType in MACHINE_KINDS
    ensures KindRoster(machineType, i + 1) == KindRoster(machineType, i) + [(machineType, GenerateMachineId(machineType, i))]
  {
    var longer := KindRoster(machineType, i + 1);
    var shorter := KindRoster(machineType, i);
    assert forall k :: 0 <= k < i ==> longer[k] == shorter[k];
  }

  /** The machines `create_machines` adds for all items, in item order. */
  function Created(counts: seq<(string, int)>): seq<(string, string)>
  {
    if counts == [] then []
    else Created(counts[..|counts| - 1]) + KindRoster(counts[|counts| - 1].0, counts[|counts| - 1].1)
  }

  lemma AppendAssoc<T>(a: seq<T>, b: seq<T>, c: seq<T>)
    ensures (a + b) + c == a + (b + c)
  {
  }

  /** One more item adds its kind's roster at the end. */
  lemma CreatedStep(counts: seq<(string, int)>, p: nat)
    requires p < |counts|
    ensures Created(counts[..p + 1]) == Created(counts[..p]) + KindRoster(counts[p].0, counts[p].1)
  {
    assert counts[..p + 1][..p] == counts[..p];
  }

  function Types(counts: seq<(string, int)>): (r: seq<string>)
    ensures |r| == |counts|
  {
    seq(|counts|, k requires 0 <= k < |counts| => counts[k].0)
  }

  /** A machine id records its type and index: it starts with the type and
      an underscore, and the rest is at least six digits that read back as
      the index; two ids are equal only for equal types and indices. */
  lemma MachineIdSpec(prefix: string, index: nat, prefix': string, index': nat)
    ensures var id := GenerateMachineId(prefix, index);
      |id| >= |prefix| + 7 && id[..|prefix|] == prefix && id[|prefix|] == '_' &&
      AllDigits(id[|prefix| + 1..]) && Parse(id[|prefix| + 1..]) == index
    ensures GenerateMachineId(prefix, index) == GenerateMachineId(prefix', index') <==> prefix == prefix' && index == index'
  {
    PaddedIdShape(prefix, index, 6);
    if GenerateMachineId(prefix, index) == GenerateMachineId(prefix', index') {
      PaddedIdInjective(prefix, index, prefix', index', 6);
    }
  }

  /** Every machine `create_machines` adds has one of the five types and an
      id `<type>_<index>` with an index below that type's count. */
  lemma {:induction false} CreatedKinds(counts: seq<(string, int)>)
    ensures forall e :: e in Created(counts) ==> (e.0 in MACHINE_KINDS &&
      exists p, i :: 0 <= p < |counts| && counts[p].0 == e.0 && 0 <= i < counts[p].1 && e.1 == GenerateMachineId(e.0, i))
  {
    if counts != [] {
      var n := |counts| - 1;
      var init := counts[..n];
      var last := KindRoster(counts[n].0, counts[n].1);
      CreatedKinds(init);
      assert Created(counts) == Created(init) + last;
      forall e | e in Created(counts)
        ensures e.0 in MACHINE_KINDS &&
          exists p, i :: 0 <= p < |counts| && counts[p].0 == e.0 && 0 <= i < counts[p].1 && e.1 == GenerateMachineId(e.0, i)
      {
        if e in Created(init) {
          var p, i :| 0 <= p < |init| && init[p].0 == e.0 && 0 <= i < init[p].1 && e.1 == GenerateMachineId(e.0, i);
          assert counts[p] == init[p];
        } else {
          var i :| 0 <= i < |last| && last[i] == e;
          assert counts[n].0 == e.0 && e.1 == GenerateMachineId(e.0, i);
        }
      }
    }
  }

  /** When the types are distinct, as the keys of a dictionary are, no
      machine id repeats. */
  lemma {:induction false} CreatedDistinct(counts: seq<(string, int)>)
    requires NoDuplicates(Types(counts))
    ensures NoDuplicates(Created(counts))
  {
    if counts != [] {
      var n := |counts| - 1;
      var init := counts[..n];
      var last := KindRoster(counts[n].0, counts[n].1);
      assert NoDuplicates(Types(init)) by {
        forall i, j | 0 <= i < j < |init|
          ensures Types(init)[i] != Types(init)[j]
        {
          assert Types(counts)[i] != Types(counts)[j];
        }
      }
      CreatedDistinct(init);
      CreatedKinds(init);
      assert Created(counts) == Created(init) + last;
      forall e | e in last
        ensures e !in Created(init)
      {
        forall p | 0 <= p < |init|
          ensures init[p].0 != e.0
        {
          assert Types(counts)[p] != Types(counts)[n];
        }
      }
      forall i, j | 0 <= i < j < |last|
        ensures last[i] != last[j]
      {
        MachineIdSpec(counts[n].0, i, counts[n].0, j);
      }
      DisjointAppend(Created(init), last);
    }
  }

  /** Two duplicate-free lists with no element in common append to a
      duplicate-free list. */
  lemma DisjointAppend<T>(xs: seq<T>, ys: seq<T>)
    requires NoDuplicates(xs) && NoDuplicates(ys)
    requires forall y :: y in ys ==> y !in xs
    ensures NoDuplicates(xs + ys)
  {
    var zs := xs + ys;
    forall i, j | 0 <= i < j < |zs|
      ensures zs[i] != zs[j]
    {
      if j < |xs| {
        assert zs[i] == xs[i] && zs[j] == xs[j];
      } else if i >= |xs| {
        assert zs[i] == ys[i - |xs|] && zs[j] == ys[j - |xs|];
      } else {
        assert zs[i] == xs[i] && zs[j] == ys[j - |xs|];
        assert ys[j - |xs|] in ys;
      }
    }
  }

  /** The `send_telemetry` calls for a cycle's records. */
  function Outbox(data: seq<Telemetry>): (r: seq<(string, map<string, Entry>)>)
    ensures |r| == |data|
  {
    seq(|data|, k requires 0 <= k < |data| => (data[k].machineId, data[k].sensors))
  }

  /** The sensor objects of every list in `lists`. */
  ghost function Members(lists: seq<seq<VirtualSensor>>): set<VirtualSensor>
  {
    set k, j | 0 <= k < |lists| && 0 <= j < |lists[k]| :: lists[k][j]
  }

  /** No sensor object appears twice in `lists`: not within one list, not
      on two lists. */
  ghost predicate Unshared(lists: seq<seq<VirtualSensor>>)
  {
    (forall k :: 0 <= k < |lists| ==> NoDuplicates(lists[k])) &&
    forall k, l, a, b :: 0 <= k < l < |lists| && 0 <= a < |lists[k]| && 0 <= b < |lists[l]| ==>
      lists[k][a] != lists[l][b]
  }

  /** Appending a list keeps the objects unshared exactly when the new list
      has no duplicates and none of its objects is already a member. */
  lemma UnsharedSnoc(lists: seq<seq<VirtualSensor>>, s: seq<VirtualSensor>)
    ensures Unshared(lists + [s]) <==>
      Unshared(lists) && NoDuplicates(s) && forall j :: 0 <= j < |s| ==> s[j] !in Members(lists)
  {
    var all := lists + [s];
    if Unshared(lists) && NoDuplicates(s) && forall j :: 0 <= j < |s| ==> s[j] !in Members(lists) {
      forall k, l, a, b | 0 <= k < l < |all| && 0 <= a < |all[k]| && 0 <= b < |all[l]|
        ensures all[k][a] != all[l][b]
      {
        if l == |lists| {
          assert all[k][a] in Members(lists);
        }
      }
      assert forall k :: 0 <= k < |all| ==> NoDuplicates(all[k]);
    }
    if Unshared(all) {
      assert Unshared(lists) by {
        assert forall k :: 0 <= k < |lists| ==> all[k] == lists[k];
      }
      assert NoDuplicates(s) by {
        assert all[|lists|] == s;
      }
      forall j | 0 <= j < |s|
        ensures s[j] !in Members(lists)
      {
        forall k, a | 0 <= k < |lists| && 0 <= a < |lists[k]|
          ensures lists[k][a] != s[j]
        {
          assert all[k][a] != all[|lists|][j];
        }
      }
    }
  }

  /** In unshared lists, no object of list `k` is on another list `i`. */
  lemma UnsharedApart(lists: seq<seq<VirtualSensor>>, i: nat, k: nat)
    requires Unshared(lists) && i < |lists| && k < |lists| && i != k
    ensures forall j :: 0 <= j < |lists[k]| ==> lists[k][j] !in lists[i]
  {
    forall j | 0 <= j < |lists[k]|
      ensures lists[k][j] !in lists[i]
    {
      forall b | 0 <= b < |lists[i]|
        ensures lists[i][b] != lists[k][j]
      {
        if k < i {
          assert lists[k][j] != lists[i][b];
        }
      }
    }
  }

  /** The ThingsBoard connector as the simulator sees it: a recipient of
      `send_telemetry(device_id, {"sensors": ...})` calls, in order. */
  class Connector {
    var sent: seq<(string, map<string, Entry>)>

    constructor ()
      ensures sent == []
    {
      sent := [];
    }

    /** `send_telemetry`: the call is recorded after the earlier ones. */
    method SendTelemetry(deviceId: string, sensors: map<string, Entry>)
      modifies this
      ensures sent == old(sent) + [(deviceId, sensors)]
    {
      sent := sent + [(deviceId, sensors)];
    }
  }

  lemma OutboxSnoc(data: seq<Telemetry>, t: Telemetry)
    ensures Outbox(data + [t]) == Outbox(data) + [(t.machineId, t.sensors)]
  {
  }

  /** `VirtualSensorSimulator`: the machines and the optional connector. */
  class VirtualSensorSimulator {
    var machines: seq<Machine>
    const connector: Option<Connector>

    /** The sensor list of every machine, in list order. */
    ghost function SensorLists(): (r: seq<seq<VirtualSensor>>)
      reads this, machines
      ensures |r| == |machines|
    {
      seq(|machines|, k reads this, machines requires 0 <= k < |machines| => machines[k].sensors)
    }

    /** Every sensor object of every machine. */
    ghost function Sensors(): set<VirtualSensor>
      reads this, machines
    {
      Members(SensorLists())
    }

    /** No sensor object is shared: none twice on a machine, none on two
        machines. */
    ghost predicate Valid()
      reads this, machines
    {
      Unshared(SensorLists())
    }

    /** The (type, id) pair of every machine, in list order. */
    function Roster(): (r: seq<(string, string)>)
      reads this, machines
      ensures |r| == |machines|
    {
      seq(|machines|, k reads this, machines requires 0 <= k < |machines| => (machines[k].machineType, machines[k].machineId))
    }

    constructor (connector: Option<Connector>)
      ensures machines == [] && this.connector == connector && Valid()
    {
      machines, this.connector := [], connector;
    }

    /** What `simulate_cycle` may send to: the connector, if there is one. */
    function Outlet(): set<Connector>
    {
      if connector.Some? then {connector.value} else {}
    }

    /** `add_machine`: the machine goes at the end of the list. */
    method AddMachine(m: Machine)
      modifies this
      ensures machines == old(machines) + [m]
      ensures Roster() == old(Roster()) + [(m.machineType, m.machineId)]
      ensures Valid() <==> old(Valid()) && m.Valid() && forall j :: 0 <= j < |m.sensors| ==> m.sensors[j] !in old(Sensors())
    {
      UnsharedSnoc(SensorLists(), m.sensors);
      machines := machines + [m];
      assert SensorLists() == old(SensorLists()) + [m.sensors];
    }

    /** `create_machines` over the items of `counts`, in order; `draw(id)(k)`
        is the initial draw of the k-th sensor of machine `id`. */
    method CreateMachines(counts: seq<(string, int)>, draw: string -> nat -> Draw)
      requires Valid()
      modifies this
      ensures Valid()
      ensures old(machines) <= machines
      ensures Roster() == old(Roster()) + Created(counts)
      ensures fresh(machines[|old(machines)|..])
      ensures AllFactoryMade(machines[|old(machines)|..], draw)
    {
      ghost var made: seq<Machine> := [];
      for p := 0 to |counts|
        invariant Valid()
        invariant Roster() == old(Roster()) + Created(counts[..p])
        invariant machines == old(machines) + made && fresh(made)
        invariant AllFactoryMade(made, draw)
      {
        CreatedStep(counts, p);
        ghost var more := CreateKind(counts[p].0, counts[p].1, draw);
        AppendAssoc(old(Roster()), Created(counts[..p]), KindRoster(counts[p].0, counts[p].1));
        AllFactoryMadeAppend(made, more, draw);
        AppendAssoc(old(machines), made, more);
        made := made + more;
      }
      assert counts[..|counts|] == counts;
      assert machines[|old(machines)|..] == made;
    }

    /** The inner loop of `create_machines`: machines `<type>_000000` to
        `<type>_<count - 1>`, each added when the factory accepts the type. */
    method CreateKind(machineType: string, count: int, draw: string -> nat -> Draw) returns (ghost made: seq<Machine>)
      requires Valid()
      modifies this
      ensures Valid()
      ensures Roster() == old(Roster()) + KindRoster(machineType, count)
      ensures machines == old(machines) + made && fresh(made)
      ensures AllFactoryMade(made, draw)
    {
      made := [];
      for i := 0 to if count < 0 then 0 else count
        invariant Valid()
        invariant Roster() == old(Roster()) + KindRoster(machineType, i)
        invariant machines == old(machines) + made && fresh(made)
        invariant AllFactoryMade(made, draw)
      {
        var machineId := GenerateMachineId(machineType, i);
        var added, more := CreateAndAdd(machineType, machineId, draw);
        if added {
          KindRosterStep(machineType, i);
          AppendAssoc(old(Roster()), KindRoster(machineType, i), [(machineType, machineId)]);
        }
        assert fresh(more);
        AllFactoryMadeAppend(made, more, draw);
        AppendAssoc(old(machines), made, more);
        made := made + more;
      }
    }

    /** The body of the inner loop of `create_machines`: the factory's
        machine for `machineId`, made with the draws `draw(machineId)`, goes
        at the end of the list when the factory makes one. */
    method CreateAndAdd(machineType: string, machineId: string, draw: string -> nat -> Draw)
      returns (added: bool, ghost made: seq<Machine>)
      requires Valid()
      modifies this
      ensures Valid()
      ensures added <==> machineType in MACHINE_KINDS
      ensures Roster() == old(Roster()) + (if added then [(machineType, machineId)] else [])
      ensures machines == old(machines) + made && fresh(made) && |made| == (if added then 1 else 0)
      ensures AllFactoryMade(made, draw)
    {
      var machine := CreateMachine(machineType, machineId, draw(machineId));
      added := machine.Some?;
      made := [];
      if added {
        var m := machine.value;
        AddMachine(m);
        made := [m];
      }
    }

    /** `simulate_cycle`, with `draws[k]` the drift draws of the k-th
        machine's sensors: every machine reports once, in list order, and
        with a connector each report's `sensors` map is sent under the
        machine's id. */
    method SimulateCycle(draws: seq<seq<Draw>>, now: int) returns (data: seq<Telemetry>)
      requires Valid() && |draws| == |machines|
      requires forall k :: 0 <= k < |machines| ==> |draws[k]| == |machines[k].sensors|
      modifies Sensors(), Outlet()
      ensures Valid() && |data| == |machines|
      ensures forall k :: 0 <= k < |machines| ==>
        machines[k].States() == DriftAll(old(machines[k].States()), draws[k]) &&
        data[k] == machines[k].TelemetryOf(machines[k].States())
      ensures connector.Some? ==> connector.value.sent == old(connector.value.sent) + Outbox(data)
    {
      data := [];
      var i := 0;
      while i < |machines|
        invariant 0 <= i <= |machines| && |data| == i
        invariant machines == old(machines) && Valid()
        invariant forall k :: 0 <= k < i ==> machines[k].States() == DriftAll(old(machines[k].States()), draws[k])
        invariant forall k :: 0 <= k < i ==> data[k] == machines[k].TelemetryOf(machines[k].States())
        invariant forall k :: i <= k < |machines| ==> machines[k].States() == old(machines[k].States())
        invariant connector.Some? ==> connector.value.sent == old(connector.value.sent) + Outbox(data)
      {
        var m := machines[i];
        var t := Report(i, draws[i], now);
        OutboxSnoc(data, t);
        data := data + [t];
        i := i + 1;
      }
    }

    /** One step of `simulate_cycle`: machine `i` reports and, with a
        connector, its `sensors` map is sent; since no sensor is shared,
        every other machine's sensors stay as they were. */
    method Report(i: nat, draws: seq<Draw>, now: int) returns (t: Telemetry)
      requires Valid() && i < |machines| && |draws| == |machines[i].sensors|
      modifies Sensors(), Outlet()
      ensures Valid()
      ensures machines[i].States() == DriftAll(old(machines[i].States()), draws)
      ensures t == machines[i].TelemetryOf(machines[i].States())
      ensures forall k :: 0 <= k < |machines| && k != i ==> machines[k].States() == old(machines[k].States())
      ensures connector.Some? ==> connector.value.sent == old(connector.value.sent) + [(machines[i].machineId, t.sensors)]
    {
      var m := machines[i];
      ghost var lists := SensorLists();
      assert lists[i] == m.sensors;
      t := m.GetTelemetry(draws, now);
      if connector.Some? {
        connector.value.SendTelemetry(m.machineId, t.sensors);
      }
      forall k | 0 <= k < |machines| && k != i
        ensures machines[k].States() == old(machines[k].States())
      {
        UnsharedApart(lists, i, k);
        assert lists[k] == machines[k].sensors;
      }
    }
  }

  /** Example: `create_machines({"MIXER": 1})` on a simulator without
      machines gives one running mixer, `MIXER_000000`, carrying the eleven
      mixer sensors. */
  method OneMixerExample(draw: string -> nat -> Draw) returns (sim: VirtualSensorSimulator)
    ensures |sim.machines| == 1
    ensures var m := sim.machines[0];
      m.machineType == MIXER && m.machineId == GenerateMachineId(MIXER, 0) &&
      m.operationalStatus && !m.maintenanceMode && |m.sensors| == 11
  {
    sim := new VirtualSensorSimulator(None);
    sim.CreateMachines([(MIXER, 1)], draw);
    assert [(MIXER, 1)][..0] == [];
    assert Created([(MIXER, 1)]) == [(MIXER, GenerateMachineId(MIXER, 0))];
    assert sim.machines[0..] == sim.machines;
    var m := sim.machines[0];
    assert FactoryMade(m, m.machineType, m.machineId, draw(m.machineId));
    assert sim.Roster()[0] == (m.machineType, m.machineId);
    MachineClasses(MIXER);
    assert |m.States()| == |InitialStates(m.machineId, MIXER_SPECS, draw(m.machineId))|;
  }
}
