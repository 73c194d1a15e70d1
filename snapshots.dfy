/** What one cycle of the sensor-kind driven engine does to a fleet's stored
    values, and the snapshot dictionary `_generate_machine_data` reports for
    a machine: one reading and one `<kind>_unit` entry per sensor, then
    `machine_type` and `timestamp` (milliseconds). */
module Snapshots {

  import opened SensorTables
  import opened Evolution
  import opened Registry

  /** The dictionary a machine reports, grouped by kind of key: the
      readings keyed `<kind>`, the units keyed `<kind>_unit`, and the
      `machine_type` and `timestamp` (milliseconds) entries. */
  datatype Snapshot = Snapshot(readings: map<SensorType, real>, units: map<SensorType, string>,
                               machineType: string, timestamp: int)

  /** The clock readings of one `generate_sensor_data` call: `clock(id)` is
      the `int(time.time() * 1000)` that `_generate_machine_data` reads for
      machine `id`, so machines stepped in one call may carry different
      timestamps. */
  type Clock = string -> int

  /** Draws for one cycle: `draw(id)(s)` is the `random.random()` used for
      sensor `s` of machine `id`. */
  type StepDraws = string -> SensorType -> real

  /** `sensor_values[machine_id].get(sensor_type, 0)` */
  function Current(vals: map<SensorType, real>, s: SensorType): real
  {
    if s in vals then vals[s] else 0.0
  }

  /** The values of a machine after one step of the sensors in `sensors`;
      the values of any other key are kept. */
  function StepMachine(sensors: seq<SensorType>, vals: map<SensorType, real>, draw: SensorType -> real): map<SensorType, real>
  {
    map s | s in vals.Keys + (set x | x in sensors) ::
      if s in sensors then StepValue(s, Current(vals, s), draw(s)) else vals[s]
  }

  /** The reading entries of a snapshot: the stored value of each sensor. */
  function ReadingsOf(sensors: seq<SensorType>, vals: map<SensorType, real>): map<SensorType, real>
    requires forall s :: s in sensors ==> s in vals
  {
    map s | s in sensors :: vals[s]
  }

  /** The unit entries of a snapshot; `unit` is the unit lookup (`UnitOf`
      in the engine). */
  function UnitsOf(sensors: seq<SensorType>, unit: SensorType -> string): map<SensorType, string>
  {
    map s | s in sensors :: unit(s)
  }

  /** The dictionary `_generate_machine_data` returns for a machine of kind
      `kind` whose values, after the step, are `vals`. */
  function SnapshotOf(kind: string, sensors: seq<SensorType>, vals: map<SensorType, real>, now: int): Snapshot
    requires forall s :: s in sensors ==> s in vals
  {
    Snapshot(ReadingsOf(sensors, vals), UnitsOf(sensors, UnitOf), kind, now)
  }

  /** The stored values after `generate_sensor_data` steps the machines in
      `which`. */
  function Evolve(f: Fleet, which: seq<string>, draw: StepDraws): (values: map<string, map<SensorType, real>>)
    requires KeysAgree(f)
    ensures values.Keys == f.sensorValues.Keys
  {
    map id | id in f.sensorValues ::
      if id in which then StepMachine(f.machineSensors[id], f.sensorValues[id], draw(id)) else f.sensorValues[id]
  }

  /** The dictionary `generate_sensor_data` returns when it stepped the
      machines in `which`. */
  function Report(f: Fleet, which: seq<string>, clock: Clock): (r: map<string, Snapshot>)
    requires FleetValid(f) && forall id :: id in which ==> id in f.machines
    ensures forall id :: id in r <==> id in which
  {
    map id | id in which :: SnapshotOf(f.machines[id], f.machineSensors[id], f.sensorValues[id], clock(id))
  }

  /** Reporting one more sensor of a duplicate-free list adds its reading
      and its unit and leaves the earlier entries as they were. */
  lemma ReportOne(sensors: seq<SensorType>, j: nat, vals: map<SensorType, real>, v: real, unit: SensorType -> string)
    requires j < |sensors| && (forall s :: s in sensors[..j] ==> s in vals) && sensors[j] !in sensors[..j]
    ensures var s := sensors[j];
      ReadingsOf(sensors[..j + 1], vals[s := v]) == ReadingsOf(sensors[..j], vals)[s := v] &&
      UnitsOf(sensors[..j + 1], unit) == UnitsOf(sensors[..j], unit)[s := unit(s)]
  {
    assert sensors[..j + 1] == sensors[..j] + [sensors[j]];
  }

  /** Stepping no machine changes nothing. */
  lemma EvolveNone(f: Fleet, draw: StepDraws)
    requires KeysAgree(f)
    ensures Evolve(f, [], draw) == f.sensorValues
  {
  }

  /** Stepping one more machine, not stepped before, adds its step. */
  lemma EvolveOne(f: Fleet, which: seq<string>, id: string, draw: StepDraws)
    requires KeysAgree(f) && id in f.machines && id !in which
    ensures Evolve(f, which + [id], draw) ==
            Evolve(f, which, draw)[id := StepMachine(f.machineSensors[id], f.sensorValues[id], draw(id))]
  {
  }

  /** Stepping a single machine. */
  lemma EvolveSingle(f: Fleet, id: string, draw: StepDraws)
    requires KeysAgree(f) && id in f.machines
    ensures Evolve(f, [id], draw) == f.sensorValues[id := StepMachine(f.machineSensors[id], f.sensorValues[id], draw(id))]
  {
  }

  /** Reporting a single machine. */
  lemma ReportSingle(f: Fleet, id: string, clock: Clock)
    requires FleetValid(f) && id in f.machines
    ensures Report(f, [id], clock) == map[id := SnapshotOf(f.machines[id], f.machineSensors[id], f.sensorValues[id], clock(id))]
  {
  }

  /** Storing new values for a machine not yet reported and then reporting
      it adds its snapshot and leaves the earlier entries as they were. */
  lemma ReportNext(f: Fleet, which: seq<string>, id: string, vals: map<SensorType, real>, clock: Clock)
    requires FleetValid(f) && id in f.machines && id !in which && forall x :: x in which ==> x in f.machines
    requires FleetValid(f.(sensorValues := f.sensorValues[id := vals]))
    ensures var g := f.(sensorValues := f.sensorValues[id := vals]);
      Report(g, which + [id], clock) ==
      Report(f, which, clock)[id := SnapshotOf(f.machines[id], f.machineSensors[id], vals, clock(id))]
  {
  }

  /** A step keeps a machine's values well formed: exactly its sensors, each
      in range. */
  lemma StepMachineSeeded(sensors: seq<SensorType>, vals: map<SensorType, real>, draw: SensorType -> real)
    requires WellSeeded(sensors, vals)
    ensures WellSeeded(sensors, StepMachine(sensors, vals, draw))
  {
    var next := StepMachine(sensors, vals, draw);
    forall s | s in next ensures InRange(s, next[s]) {
      StepInRange(s, vals[s], draw(s));
    }
  }

  /** A step moves every sensor of the machine as `StepValue` says and only
      those. */
  lemma StepMachineSpec(sensors: seq<SensorType>, vals: map<SensorType, real>, draw: SensorType -> real)
    ensures var next := StepMachine(sensors, vals, draw);
      (forall s :: s in next <==> s in vals || s in sensors) &&
      (forall s :: s in sensors ==> next[s] == StepValue(s, Current(vals, s), draw(s))) &&
      (forall s :: s in vals && s !in sensors ==> next[s] == vals[s])
  {
  }

  /** Stepping any set of machines keeps the fleet invariant: no value
      leaves its range, whatever the draws. */
  lemma EvolveValid(f: Fleet, which: seq<string>, draw: StepDraws)
    requires FleetValid(f)
    ensures FleetValid(f.(sensorValues := Evolve(f, which, draw)))
  {
    var g := f.(sensorValues := Evolve(f, which, draw));
    forall id | id in f.machines ensures WellSeeded(g.machineSensors[id], g.sensorValues[id]) {
      if id in which {
        StepMachineSeeded(f.machineSensors[id], f.sensorValues[id], draw(id));
      }
    }
  }

  /** A snapshot holds one reading and one unit per sensor and nothing
      else; each reading is the stored value, each unit the sensor's unit. */
  lemma SnapshotSpec(kind: string, sensors: seq<SensorType>, vals: map<SensorType, real>, now: int)
    requires forall s :: s in sensors ==> s in vals
    ensures var d := SnapshotOf(kind, sensors, vals, now);
      (forall s :: s in d.readings <==> s in sensors) &&
      (forall s :: s in d.units <==> s in sensors) &&
      (forall s :: s in sensors ==> d.readings[s] == vals[s] && d.units[s] == UnitOf(s)) &&
      d.machineType == kind && d.timestamp == now
  {
  }

  /** Every reading a valid fleet reports lies in its sensor's range. */
  lemma ReportedInRange(f: Fleet, which: seq<string>, clock: Clock, id: string, s: SensorType)
    requires FleetValid(f) && forall x :: x in which ==> x in f.machines
    requires id in which && s in f.machineSensors[id]
    ensures s in Report(f, which, clock)[id].readings
    ensures Report(f, which, clock)[id].readings[s] == f.sensorValues[id][s]
    ensures InRange(s, f.sensorValues[id][s])
    ensures Report(f, which, clock)[id].timestamp == clock(id)
  {
    var vals := f.sensorValues[id];
    assert WellSeeded(f.machineSensors[id], vals);
    assert Report(f, which, clock)[id] == SnapshotOf(f.machines[id], f.machineSensors[id], vals, clock(id));
    SnapshotSpec(f.machines[id], f.machineSensors[id], vals, clock(id));
  }
}
