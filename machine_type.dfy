/** The machine taxonomy: the five machine kinds and the ordered list of
    sensor kinds each one carries (`MachineType.MACHINE_SENSORS`). */
module MachineType {

  import opened Wrappers
  import opened SensorTables

  const MIXER := "MIXER"
  const CNC_MACHINE := "CNC_MACHINE"
  const HYDRAULIC_PRESS := "HYDRAULIC_PRESS"
  const CONVEYOR_SYSTEM := "CONVEYOR_SYSTEM"
  const PUMP_SYSTEM := "PUMP_SYSTEM"

  const MACHINE_KINDS: seq<string> := [MIXER, CNC_MACHINE, HYDRAULIC_PRESS, CONVEYOR_SYSTEM, PUMP_SYSTEM]

  const MIXER_SENSORS: seq<SensorType> := [
    RTD_PT100, THERMOCOUPLE_K_TYPE, INFRARED_TEMP,
    PIEZOELECTRIC_ACCELEROMETER, ROTARY_ENCODER, GYROSCOPE,
    INDUSTRIAL_MICROPHONE,
    CAPACITIVE_LEVEL, ULTRASONIC_LEVEL,
    CURRENT_TRANSFORMER, POWER_METER
  ]

  const CNC_MACHINE_SENSORS: seq<SensorType> := [
    RTD_PT100, THERMOCOUPLE_J_TYPE, THERMAL_IMAGING,
    MEMS_ACCELEROMETER, PROXIMITY_PROBE, STRAIN_GAUGE,
    LINEAR_ENCODER, ABSOLUTE_ENCODER, LVDT,
    PRESSURE_TRANSDUCER, ELECTROMAGNETIC_FLOW, DIFFERENTIAL_PRESSURE,
    FLOAT_LEVEL_SWITCH, CAPACITIVE_LEVEL,
    LASER_DISTANCE, PHOTOELECTRIC,
    ACOUSTIC_EMISSION
  ]

  const HYDRAULIC_PRESS_SENSORS: seq<SensorType> := [
    STRAIN_GAUGE_PRESSURE, PIEZOELECTRIC_PRESSURE, BOURDON_TUBE_GAUGE,
    RTD_PT100, THERMISTOR, BIMETALLIC_TEMP_SWITCH,
    LVDT, MAGNETOSTRICTIVE_POSITION, LIMIT_SWITCH,
    LOAD_CELL, STRAIN_GAUGE, PIEZOELECTRIC_FORCE,
    INDUSTRIAL_ACCELEROMETER, VELOCITY_SENSOR
  ]

  const CONVEYOR_SYSTEM_SENSORS: seq<SensorType> := [
    TACHOMETER, HALL_EFFECT, INCREMENTAL_ENCODER,
    PHOTOELECTRIC, INDUCTIVE_PROXIMITY, LASER_SCANNER, ULTRASONIC_SENSOR,
    BELT_SCALE_LOAD_CELL, STRAIN_GAUGE,
    EMERGENCY_STOP, LIGHT_CURTAIN, SAFETY_MAT
  ]

  const PUMP_SYSTEM_SENSORS: seq<SensorType> := [
    ELECTROMAGNETIC_FLOW, TURBINE_FLOW, ULTRASONIC_FLOW,
    BOURDON_PRESSURE_GAUGE, DIAPHRAGM_PRESSURE, DIFFERENTIAL_PRESSURE,
    RADAR_LEVEL, HYDROSTATIC_LEVEL, FLOAT_LEVEL_SWITCH,
    RTD_PT100,
    MEMS_ACCELEROMETER, PROXIMITY_PROBE
  ]

  /** `MACHINE_SENSORS` as a lookup on the kind string: `None` for a kind
      the table lacks. */
  function MachineSensors(kind: string): Option<seq<SensorType>>
  {
    if kind == MIXER then Some(MIXER_SENSORS)
    else if kind == CNC_MACHINE then Some(CNC_MACHINE_SENSORS)
    else if kind == HYDRAULIC_PRESS then Some(HYDRAULIC_PRESS_SENSORS)
    else if kind == CONVEYOR_SYSTEM then Some(CONVEYOR_SYSTEM_SENSORS)
    else if kind == PUMP_SYSTEM then Some(PUMP_SYSTEM_SENSORS)
    else None
  }

  /** `MACHINE_SENSORS.get(kind, [])`: an unknown kind carries no sensors. */
  function SensorsOf(kind: string): seq<SensorType>
  {
    MachineSensors(kind).GetOr([])
  }

  predicate NoDuplicates<T(==)>(s: seq<T>)
  {
    forall i, j :: 0 <= i < j < |s| ==> s[i] != s[j]
  }

  /** The table has an entry for exactly the five kinds. */
  lemma KnownKinds(kind: string)
    ensures MachineSensors(kind).Some? <==> kind in MACHINE_KINDS
  {
  }

  /** The number of sensors each kind carries. */
  lemma SensorCounts()
    ensures |SensorsOf(MIXER)| == 11
    ensures |SensorsOf(CNC_MACHINE)| == 17
    ensures |SensorsOf(HYDRAULIC_PRESS)| == 14
    ensures |SensorsOf(CONVEYOR_SYSTEM)| == 12
    ensures |SensorsOf(PUMP_SYSTEM)| == 12
  {
  }

  /** No kind lists a sensor kind twice (an unknown kind lists none). */
  lemma SensorListsDistinct(kind: string)
    ensures NoDuplicates(SensorsOf(kind))
  {
    KindListed(kind);
  }

  /** A sensor list without repeats whose kinds all appear in both tables. */
  predicate Listed(sensors: seq<SensorType>)
  {
    NoDuplicates(sensors) && forall i :: 0 <= i < |sensors| ==> !sensors[i].Unlisted?
  }

  lemma KindListed(kind: string)
    ensures Listed(SensorsOf(kind))
  {
    if kind == MIXER {
      MixerListed();
    } else if kind == CNC_MACHINE {
      CncListed();
    } else if kind == HYDRAULIC_PRESS {
      PressListed();
    } else if kind == CONVEYOR_SYSTEM {
      ConveyorListed();
    } else if kind == PUMP_SYSTEM {
      PumpListed();
    }
  }

  lemma MixerListed() ensures Listed(MIXER_SENSORS) { }
  lemma CncListed() ensures Listed(CNC_MACHINE_SENSORS) { }
  lemma PressListed() ensures Listed(HYDRAULIC_PRESS_SENSORS) { }
  lemma ConveyorListed() ensures Listed(CONVEYOR_SYSTEM_SENSORS) { }
  lemma PumpListed() ensures Listed(PUMP_SYSTEM_SENSORS) { }

  /** Only the conveyor carries safety sensors, and it carries all three. */
  lemma SafetySensorsOnlyOnConveyor(kind: string, s: SensorType)
    requires IsSafety(s)
    ensures s in SensorsOf(kind) <==> kind == CONVEYOR_SYSTEM
  {
    if kind == CONVEYOR_SYSTEM {
      assert s == CONVEYOR_SYSTEM_SENSORS[9] || s == CONVEYOR_SYSTEM_SENSORS[10] || s == CONVEYOR_SYSTEM_SENSORS[11];
    } else {
      assert forall x :: x in SensorsOf(kind) ==> !IsSafety(x) by {
        NoSafetyOffConveyor(kind);
      }
    }
  }

  lemma NoSafetyOffConveyor(kind: string)
    requires kind != CONVEYOR_SYSTEM
    ensures forall x :: x in SensorsOf(kind) ==> !IsSafety(x)
  {
    if kind == MIXER {
      assert forall i :: 0 <= i < |MIXER_SENSORS| ==> !IsSafety(MIXER_SENSORS[i]);
    } else if kind == CNC_MACHINE {
      assert forall i :: 0 <= i < |CNC_MACHINE_SENSORS| ==> !IsSafety(CNC_MACHINE_SENSORS[i]);
    } else if kind == HYDRAULIC_PRESS {
      assert forall i :: 0 <= i < |HYDRAULIC_PRESS_SENSORS| ==> !IsSafety(HYDRAULIC_PRESS_SENSORS[i]);
    } else if kind == PUMP_SYSTEM {
      assert forall i :: 0 <= i < |PUMP_SYSTEM_SENSORS| ==> !IsSafety(PUMP_SYSTEM_SENSORS[i]);
    }
  }

  /** Every sensor kind a machine carries has its own range and unit, so the
      lookup defaults are never used for the built-in machines. */
  lemma SensorTablesComplete(kind: string, s: SensorType)
    requires s in SensorsOf(kind)
    ensures SensorRange(s).Some? && SensorUnit(s).Some?
  {
    KindListed(kind);
    TablesCoverNamedKinds(s);
  }
}
