/** The sensor taxonomy of the sensor-kind driven engine: the kinds, their
    normal operating ranges and their units (`SENSOR_RANGES` and
    `SENSOR_UNITS` of `SensorSimulator`). */
module SensorTables {

  import Numeric
  import opened Wrappers

  /** One constructor per sensor kind that appears in the tables.
      `Unlisted` stands for any other `SensorType` constant: the engine looks
      those up with defaults, a range of (0, 100) and no unit. */
  datatype SensorType =
    | RTD_PT100
    | THERMOCOUPLE_K_TYPE
    | THERMOCOUPLE_J_TYPE
    | INFRARED_TEMP
    | THERMISTOR
    | BIMETALLIC_TEMP_SWITCH
    | THERMAL_IMAGING
    | PIEZOELECTRIC_ACCELEROMETER
    | ROTARY_ENCODER
    | GYROSCOPE
    | MEMS_ACCELEROMETER
    | PROXIMITY_PROBE
    | STRAIN_GAUGE
    | INDUSTRIAL_ACCELEROMETER
    | VELOCITY_SENSOR
    | INDUSTRIAL_MICROPHONE
    | ACOUSTIC_EMISSION
    | CAPACITIVE_LEVEL
    | ULTRASONIC_LEVEL
    | FLOAT_LEVEL_SWITCH
    | RADAR_LEVEL
    | HYDROSTATIC_LEVEL
    | CURRENT_TRANSFORMER
    | POWER_METER
    | LINEAR_ENCODER
    | ABSOLUTE_ENCODER
    | LVDT
    | MAGNETOSTRICTIVE_POSITION
    | LIMIT_SWITCH
    | LASER_DISTANCE
    | PHOTOELECTRIC
    | PRESSURE_TRANSDUCER
    | ELECTROMAGNETIC_FLOW
    | DIFFERENTIAL_PRESSURE
    | STRAIN_GAUGE_PRESSURE
    | PIEZOELECTRIC_PRESSURE
    | BOURDON_TUBE_GAUGE
    | BOURDON_PRESSURE_GAUGE
    | DIAPHRAGM_PRESSURE
    | TURBINE_FLOW
    | ULTRASONIC_FLOW
    | LOAD_CELL
    | PIEZOELECTRIC_FORCE
    | BELT_SCALE_LOAD_CELL
    | TACHOMETER
    | HALL_EFFECT
    | INCREMENTAL_ENCODER
    | INDUCTIVE_PROXIMITY
    | LASER_SCANNER
    | ULTRASONIC_SENSOR
    | EMERGENCY_STOP
    | LIGHT_CURTAIN
    | SAFETY_MAT
    | Unlisted(name: string)

  /** A normal operating range, both ends written in hundredths of the
      sensor's unit (every bound in the table is a whole number of hundredths). */
  datatype Range = Range(lo: int, hi: int)
  {
    function Lo(): real { Numeric.Cents(lo) }
    function Hi(): real { Numeric.Cents(hi) }
  }

  /** `SENSOR_RANGES` as a lookup: `None` for a kind the table lacks. */
  function SensorRange(s: SensorType): Option<Range>
  {
    match s
    case RTD_PT100 => Some(Range(2000, 8000))
    case THERMOCOUPLE_K_TYPE => Some(Range(2500, 9000))
    case THERMOCOUPLE_J_TYPE => Some(Range(2000, 8500))
    case INFRARED_TEMP => Some(Range(2200, 7800))
    case THERMISTOR => Some(Range(2500, 7500))
    case BIMETALLIC_TEMP_SWITCH => Some(Range(3000, 7000))
    case THERMAL_IMAGING => Some(Range(2000, 9500))
    case PIEZOELECTRIC_ACCELEROMETER => Some(Range(10, 1500))
    case ROTARY_ENCODER => Some(Range(5000, 200000))
    case GYROSCOPE => Some(Range(1, 500))
    case MEMS_ACCELEROMETER => Some(Range(5, 1000))
    case PROXIMITY_PROBE => Some(Range(50, 500))
    case STRAIN_GAUGE => Some(Range(1000, 50000))
    case INDUSTRIAL_ACCELEROMETER => Some(Range(20, 2000))
    case VELOCITY_SENSOR => Some(Range(50, 2500))
    case INDUSTRIAL_MICROPHONE => Some(Range(5000, 9500))
    case ACOUSTIC_EMISSION => Some(Range(4000, 9000))
    case CAPACITIVE_LEVEL => Some(Range(1000, 9000))
    case ULTRASONIC_LEVEL => Some(Range(500, 9500))
    case FLOAT_LEVEL_SWITCH => Some(Range(0, 10000))
    case RADAR_LEVEL => Some(Range(0, 10000))
    case HYDROSTATIC_LEVEL => Some(Range(500, 9500))
    case CURRENT_TRANSFORMER => Some(Range(500, 8000))
    case POWER_METER => Some(Range(5000, 20000))
    case LINEAR_ENCODER => Some(Range(0, 100000))
    case ABSOLUTE_ENCODER => Some(Range(0, 36000))
    case LVDT => Some(Range(0, 10000))
    case MAGNETOSTRICTIVE_POSITION => Some(Range(0, 50000))
    case LIMIT_SWITCH => Some(Range(0, 100))
    case LASER_DISTANCE => Some(Range(1000, 500000))
    case PHOTOELECTRIC => Some(Range(0, 100))
    case PRESSURE_TRANSDUCER => Some(Range(0, 10000))
    case ELECTROMAGNETIC_FLOW => Some(Range(500, 20000))
    case DIFFERENTIAL_PRESSURE => Some(Range(0, 2500))
    case STRAIN_GAUGE_PRESSURE => Some(Range(0, 15000))
    case PIEZOELECTRIC_PRESSURE => Some(Range(500, 12000))
    case BOURDON_TUBE_GAUGE => Some(Range(0, 10000))
    case BOURDON_PRESSURE_GAUGE => Some(Range(0, 10000))
    case DIAPHRAGM_PRESSURE => Some(Range(0, 5000))
    case TURBINE_FLOW => Some(Range(1000, 30000))
    case ULTRASONIC_FLOW => Some(Range(500, 25000))
    case LOAD_CELL => Some(Range(0, 500000))
    case PIEZOELECTRIC_FORCE => Some(Range(0, 1000000))
    case BELT_SCALE_LOAD_CELL => Some(Range(0, 200000))
    case TACHOMETER => Some(Range(0, 300000))
    case HALL_EFFECT => Some(Range(0, 100))
    case INCREMENTAL_ENCODER => Some(Range(0, 500000))
    case INDUCTIVE_PROXIMITY => Some(Range(0, 100))
    case LASER_SCANNER => Some(Range(5000, 1000000))
    case ULTRASONIC_SENSOR => Some(Range(10000, 500000))
    case EMERGENCY_STOP => Some(Range(0, 100))
    case LIGHT_CURTAIN => Some(Range(0, 100))
    case SAFETY_MAT => Some(Range(0, 100))
    case Unlisted(_) => None
  }

  /** `SENSOR_UNITS` as a lookup: `None` for a kind the table lacks. */
  function SensorUnit(s: SensorType): Option<string>
  {
    match s
    case RTD_PT100 => Some("°C")
    case THERMOCOUPLE_K_TYPE => Some("°C")
    case THERMOCOUPLE_J_TYPE => Some("°C")
    case INFRARED_TEMP => Some("°C")
    case THERMISTOR => Some("°C")
    case BIMETALLIC_TEMP_SWITCH => Some("°C")
    case THERMAL_IMAGING => Some("°C")
    case PIEZOELECTRIC_ACCELEROMETER => Some("mm/s")
    case ROTARY_ENCODER => Some("RPM")
    case GYROSCOPE => Some("rad/s")
    case MEMS_ACCELEROMETER => Some("mm/s²")
    case PROXIMITY_PROBE => Some("mm")
    case STRAIN_GAUGE => Some("µε")
    case INDUSTRIAL_ACCELEROMETER => Some("mm/s²")
    case VELOCITY_SENSOR => Some("mm/s")
    case INDUSTRIAL_MICROPHONE => Some("dB")
    case ACOUSTIC_EMISSION => Some("dB")
    case CAPACITIVE_LEVEL => Some("%")
    case ULTRASONIC_LEVEL => Some("%")
    case FLOAT_LEVEL_SWITCH => Some("binary")
    case RADAR_LEVEL => Some("%")
    case HYDROSTATIC_LEVEL => Some("%")
    case CURRENT_TRANSFORMER => Some("A")
    case POWER_METER => Some("kW")
    case LINEAR_ENCODER => Some("mm")
    case ABSOLUTE_ENCODER => Some("degrees")
    case LVDT => Some("mm")
    case MAGNETOSTRICTIVE_POSITION => Some("mm")
    case LIMIT_SWITCH => Some("binary")
    case LASER_DISTANCE => Some("mm")
    case PHOTOELECTRIC => Some("binary")
    case PRESSURE_TRANSDUCER => Some("bar")
    case ELECTROMAGNETIC_FLOW => Some("L/min")
    case DIFFERENTIAL_PRESSURE => Some("bar")
    case STRAIN_GAUGE_PRESSURE => Some("bar")
    case PIEZOELECTRIC_PRESSURE => Some("bar")
    case BOURDON_TUBE_GAUGE => Some("bar")
    case BOURDON_PRESSURE_GAUGE => Some("bar")
    case DIAPHRAGM_PRESSURE => Some("bar")
    case TURBINE_FLOW => Some("L/min")
    case ULTRASONIC_FLOW => Some("L/min")
    case LOAD_CELL => Some("kg")
    case PIEZOELECTRIC_FORCE => Some("N")
    case BELT_SCALE_LOAD_CELL => Some("kg")
    case TACHOMETER => Some("RPM")
    case HALL_EFFECT => Some("binary")
    case INCREMENTAL_ENCODER => Some("pulses/rev")
    case INDUCTIVE_PROXIMITY => Some("binary")
    case LASER_SCANNER => Some("mm")
    case ULTRASONIC_SENSOR => Some("mm")
    case EMERGENCY_STOP => Some("binary")
    case LIGHT_CURTAIN => Some("binary")
    case SAFETY_MAT => Some("binary")
    case Unlisted(_) => None
  }
  /** `SENSOR_RANGES.get(s, (0, 100))` */
  function RangeOf(s: SensorType): Range
  {
    SensorRange(s).GetOr(Range(0, 10000))
  }

  /** `SENSOR_UNITS.get(s, "")`, the unit reported beside a reading */
  function UnitOf(s: SensorType): string
  {
    SensorUnit(s).GetOr("")
  }

  /** The eight kinds whose unit is "binary"; the engine treats them as 0/1
      sensors whatever their range says (`BinaryKinds` ties this list to the
      unit table). */
  predicate IsBinary(s: SensorType)
  {
    s.FLOAT_LEVEL_SWITCH? || s.LIMIT_SWITCH? || s.PHOTOELECTRIC? || s.HALL_EFFECT? ||
    s.INDUCTIVE_PROXIMITY? || s.EMERGENCY_STOP? || s.LIGHT_CURTAIN? || s.SAFETY_MAT?
  }

  /** The safety kinds kept in the safe state (1) unless they trip. */
  const SAFETY_SENSORS: seq<SensorType> := [EMERGENCY_STOP, LIGHT_CURTAIN, SAFETY_MAT]

  predicate IsSafety(s: SensorType)
  {
    s in SAFETY_SENSORS
  }

  /** Both tables list exactly the named kinds; only `Unlisted` kinds fall
      back to the defaults. */
  lemma TablesCoverNamedKinds(s: SensorType)
    ensures SensorRange(s).Some? <==> !s.Unlisted?
    ensures SensorUnit(s).Some? <==> !s.Unlisted?
  {
  }

  /** Every range is non-empty, with a positive upper bound; the default
      range (0, 100) is too. */
  lemma RangeWellFormed(s: SensorType)
    ensures RangeOf(s).lo < RangeOf(s).hi && 0 < RangeOf(s).hi
  {
  }

  /** Every upper bound is an even number of hundredths, so half as much
      again is a whole number of hundredths. */
  lemma RangeHiEven(s: SensorType)
    ensures 0 < RangeOf(s).hi && RangeOf(s).hi % 2 == 0
  {
  }

  /** A kind is binary exactly when `SENSOR_UNITS.get(s) == "binary"`;
      FLOAT_LEVEL_SWITCH is among them although its range is (0, 100). */
  lemma BinaryKinds(s: SensorType)
    ensures IsBinary(s) <==> SensorUnit(s) == Some("binary")
    ensures IsBinary(s) <==> UnitOf(s) == "binary"
  {
  }

  /** Safety kinds are binary, and every binary kind's range contains 0 and 1. */
  lemma BinaryRangesHoldBits(s: SensorType)
    ensures IsSafety(s) ==> IsBinary(s)
    ensures IsBinary(s) ==> RangeOf(s).lo <= 0 && 100 <= RangeOf(s).hi
  {
  }
}
