# Factory sensor simulator: a Dafny model

This project models the two simulation engines of a factory sensor simulator
that feeds a ThingsBoard instance, and proves properties of them.

**The sensor-kind engine (`SensorSimulator`).** A registry of machines keyed
`<kind>_<NNN>`. Each machine has its kind's fixed list of sensor kinds and one
stored value per sensor.

- Every sensor kind has a normal range and a unit.
- Registering a machine seeds each sensor. A safety switch starts at 1. Any
  other binary sensor starts at a random bit. A continuous sensor starts at a
  random point of its range, rounded to hundredths.
- One cycle steps every sensor:
  - a safety switch trips to 0 with probability 1%;
  - any other binary sensor toggles with probability 5%;
  - a continuous sensor takes a random walk of at most 2.5% of its range
    width, clamped to the range and rounded.
- The `simulate` loop runs `duration // interval` cycles, or every cycle for a
  non-positive duration. Each cycle:
  - steps and reports every machine;
  - with probability 1%, picks a machine by weighted choice (weight 3 after an
    earlier anomaly), picks one of its sensors, and overwrites that reported
    reading with 1.5 times the sensor's maximum;
  - hands every machine's snapshot to the connector;
  - sleeps for what is left of the interval.

**The object-per-sensor engine (`VirtualSensorSimulator`).**

- Every `VirtualSensor` object holds its own value. Each reading drifts that
  value by a random factor between -5% and +5%, clamps it to the sensor's
  bounds, and reports it rounded.
- A machine is a list of such sensors. Five machine classes attach fixed
  sensor lists.
- `create_machines` builds machines `<type>_<NNNNNN>` from a count per type.
- `simulate_cycle` collects one telemetry record per machine and sends each
  record's sensor map to the connector.

**Inputs as parameters.** Every call to `random` is a parameter of the model.
`random.random()` is a `Draw` in [0, 1). `random.choice([0, 1])` is a
`bool`. `random.uniform(a, b)` is `a + (b - a) * r`.

The clock (`time.time()`) is an integer millisecond parameter. In the
sensor-kind engine, `generate_sensor_data` takes one clock reading per machine
(`Snapshots.Clock`), because `_generate_machine_data` reads the clock for each
machine in turn. The time a cycle took is a real parameter.

A connector is a recording sink: the list of `send_telemetry` calls made.

**Where code and comments differ.** The code is followed:

- `_generate_machine_data` says "±5% of range". Its variation is
  `(r - 0.5) * 0.05 * width`, which is at most ±2.5% of the width
  (`Evolution.VariationBound`).
- The unit table marks `FLOAT_LEVEL_SWITCH` as binary although its range is
  (0, 100). The engine treats it as a 0/1 sensor (`SensorTables.BinaryKinds`).
- The `PumpSystem` class attaches 13 sensors. `MACHINE_SENSORS` lists 12 for
  a pump. Both are modelled as written (`VirtualSensors.MachineClasses`,
  `MachineType.SensorCounts`).

## Model

| member | source | states |
|---|---|---|
| Numeric.Round2 | src/thingsboard/simulator.py:307 | Defines `round(x, 2)` as rounding half up to hundredths. Round2Near, Round2Bounds and Round2Cents state its properties. |
| Numeric.Clamp | src/thingsboard/simulator.py:302-304 | `max(lo, min(hi, v))` lies in [lo, hi]. It returns v when v is already inside, lo below, and hi above. |
| Numeric.Round2Near | src/thingsboard/simulator.py:306-307 | `round(x, 2)` moves x by at most half a hundredth. |
| Numeric.Round2Bounds | src/thingsboard/simulator.py:302-307 | Rounding a clamped value never crosses a bound that is a whole number of hundredths. |
| Numeric.Round2Cents | src/thingsboard/simulator.py:410 | Rounding leaves a whole number of hundredths unchanged. |
| Numeric.FloorDiv | src/thingsboard/simulator.py:386 | `duration // interval` is the floor quotient for either sign of the interval, as Python's `//` defines it. |
| Decimal.Digits | src/thingsboard/simulator.py:206 | The decimal rendering of an index is a non-empty string of digits. |
| Decimal.ZeroPad | src/thingsboard/virtual_sensors.py:306 | The `0<width>d` format gives digits only, of length max(width, number of digits). |
| Decimal.ParseDigits | src/thingsboard/simulator.py:206 | Reading a rendered index back gives the index. |
| Decimal.ParseLeadingZeros | src/thingsboard/virtual_sensors.py:306 | Leading zeros do not change the value read back. |
| Decimal.ParseZeros | src/thingsboard/virtual_sensors.py:306 | A string of zeros reads as 0. |
| Decimal.ZeroPadRoundTrip | src/thingsboard/virtual_sensors.py:306 | Padding with zeros loses nothing: the padded index reads back as the index. |
| Decimal.PaddedIdShape | src/thingsboard/simulator.py:206 | `f"{prefix}_{index:0Nd}"` is the prefix, an underscore and at least N digits that read back as the index. |
| Decimal.PaddedIdInjective | src/thingsboard/simulator.py:206 | Two padded ids are equal only when both the prefixes and the indices are equal. |
| SensorTables.SensorRange | src/thingsboard/simulator.py:23-98 | Defines the `SENSOR_RANGES` table in hundredths: a range for each listed kind, none for an unlisted one. RangeWellFormed and RangeHiEven state its properties. |
| SensorTables.SensorUnit | src/thingsboard/simulator.py:101-176 | Defines the `SENSOR_UNITS` table: a unit for each listed kind, none for an unlisted one. TablesCoverNamedKinds states that both tables list the same kinds. |
| SensorTables.IsBinary | src/thingsboard/simulator.py:278 | Defines the kinds the engine treats as binary. BinaryKinds states that they are exactly the kinds whose unit is "binary". |
| SensorTables.IsSafety | src/thingsboard/simulator.py:280-281 | Defines membership in the list `EMERGENCY_STOP`, `LIGHT_CURTAIN`, `SAFETY_MAT`. BinaryRangesHoldBits states that these kinds are binary. |
| SensorTables.TablesCoverNamedKinds | src/thingsboard/simulator.py:23-176 | The range table and the unit table list exactly the same kinds. Only an unlisted kind falls back to the defaults. |
| SensorTables.RangeWellFormed | src/thingsboard/simulator.py:23-98 | Every range, and the default (0, 100), has lo < hi and a positive maximum. |
| SensorTables.RangeHiEven | src/thingsboard/simulator.py:23-98 | Every maximum is an even number of hundredths, so 1.5 times it is a whole number of hundredths. |
| SensorTables.BinaryKinds | src/thingsboard/simulator.py:101-176 | A kind is treated as binary exactly when its unit is "binary", in both directions. |
| SensorTables.BinaryRangesHoldBits | src/thingsboard/simulator.py:219-225 | The three safety kinds are binary. Every binary kind's range contains 0 and 1. |
| MachineType.MachineSensors | src/thingsboard/machine_type.py:11-114 | Defines `MACHINE_SENSORS.get(kind)`: the kind's sensor list for the five kinds and none otherwise. KnownKinds, SensorCounts and KindListed state its properties. |
| MachineType.KnownKinds | src/thingsboard/machine_type.py:5-11 | `MACHINE_SENSORS` has an entry exactly for the five machine kinds. |
| MachineType.SensorCounts | src/thingsboard/machine_type.py:11-114 | The five kinds carry 11, 17, 14, 12 and 12 sensors. |
| MachineType.SensorListsDistinct | src/thingsboard/machine_type.py:11-114 | No kind's sensor list names a sensor kind twice. |
| MachineType.KindListed | src/thingsboard/machine_type.py:11-114 | Every machine kind's sensor list is free of repeats and names only kinds that both tables list. |
| MachineType.MixerListed | src/thingsboard/machine_type.py:12-29 | Every mixer sensor is a kind both tables list, and none repeats. |
| MachineType.CncListed | src/thingsboard/machine_type.py:30-55 | Every CNC machine sensor is a kind both tables list, and none repeats. |
| MachineType.PressListed | src/thingsboard/machine_type.py:56-76 | Every hydraulic press sensor is a kind both tables list, and none repeats. |
| MachineType.ConveyorListed | src/thingsboard/machine_type.py:77-94 | Every conveyor sensor is a kind both tables list, and none repeats. |
| MachineType.PumpListed | src/thingsboard/machine_type.py:95-113 | Every pump sensor is a kind both tables list, and none repeats. |
| MachineType.SafetySensorsOnlyOnConveyor | src/thingsboard/machine_type.py:77-94 | A safety sensor kind belongs to a machine kind exactly when that kind is the conveyor. |
| MachineType.NoSafetyOffConveyor | src/thingsboard/machine_type.py:11-114 | Machine kinds other than the conveyor carry no safety sensor. |
| MachineType.SensorTablesComplete | src/thingsboard/simulator.py:214-216 | Every sensor of every machine kind is in both tables, so the `.get` defaults are never used for a registered machine. |
| Evolution.InitialValue | src/thingsboard/simulator.py:216-229 | Defines the seeded value of one sensor. InitialValueSpec states what that value is. |
| Evolution.StepValue | src/thingsboard/simulator.py:278-307 | Defines one step of one sensor: the safety trip, the binary toggle, or the clamped and rounded random walk. StepInRange, StepDrift, SafetyStep and BinaryToggle state its properties. |
| Evolution.InitialValueSpec | src/thingsboard/simulator.py:212-229 | A seeded value is in range. A safety switch starts at 1. Another binary sensor starts at 1 exactly when the drawn bit is 1. A continuous sensor starts within half a hundredth of `min + r * (max - min)`. |
| Evolution.UniformPointInRange | src/thingsboard/simulator.py:228-229 | The rounded point a draw selects lies in the range, within half a hundredth of the point. |
| Evolution.VariationBound | src/thingsboard/simulator.py:293-296 | The random-walk increment is at most 2.5% of the range width either way. |
| Evolution.AboveRange | src/thingsboard/simulator.py:23-98 | A value above a sensor's maximum is never a value it holds between cycles. |
| Evolution.StepInRange | src/thingsboard/simulator.py:278-307 | From any value, a step leaves a continuous sensor inside its range. A binary sensor stays at 0 or 1. |
| Evolution.ClampedInRange | src/thingsboard/simulator.py:302-307 | Clamping to a range and then rounding stays inside the range. |
| Evolution.StepDrift | src/thingsboard/simulator.py:293-307 | From inside its range, a continuous sensor moves by at most 2.5% of the width plus the rounding error. |
| Evolution.SafetyStep | src/thingsboard/simulator.py:280-285 | A safety switch's next value ignores its old value. It is 0 exactly when the draw is below 0.01, and 1 otherwise. |
| Evolution.BinaryToggle | src/thingsboard/simulator.py:286-291 | Another binary sensor changes exactly when the draw is below 0.05, and then it toggles. |
| Injection.InjectionOf | src/thingsboard/simulator.py:401-411 | Defines the outcome of the anomaly block as a value: no event, the empty-fleet `IndexError`, a machine without sensors, or an injected reading. InjectionSpec states it. |
| Injection.InjectedValue | src/thingsboard/simulator.py:409-410 | Defines `round(max_val * 1.5, 2)` for the sensor's range maximum. InjectedValueOvershoots and InjectedValueExact state its properties. |
| Injection.CountEvent | src/thingsboard/simulator.py:412 | Defines the counter update: one more for the machine that received an injection, no change otherwise. CountEventSpec states it. |
| Injection.Weights | src/thingsboard/simulator.py:403-404 | One weight per machine, all positive. A weight is 3 exactly when that machine has had an anomaly. |
| Injection.BisectRight | src/thingsboard/simulator.py:405 | The search result of `random.choices` lies within the searched bounds. |
| Injection.DrawPoint | src/thingsboard/simulator.py:405 | `random() * total` lies in [0, total) for a positive total. |
| Injection.WeightedChoice | src/thingsboard/simulator.py:405 | The chosen index is a valid machine index. |
| Injection.UniformIndex | src/thingsboard/simulator.py:407-408 | `random.choice(sensors)` picks a valid sensor index. |
| Injection.TotalPrefix | src/thingsboard/simulator.py:404-405 | Each cumulative weight is the previous one plus the machine's weight. |
| Injection.CumMonotone | src/thingsboard/simulator.py:404-405 | With positive weights, cumulative weights strictly increase. |
| Injection.BisectRightSpec | src/thingsboard/simulator.py:405 | The bisection returns the first index whose cumulative weight exceeds the point. |
| Injection.ChoiceInterval | src/thingsboard/simulator.py:403-405 | Machine i is chosen exactly for the draws whose point falls in [cum(i), cum(i+1)). So each machine is chosen in proportion to its weight, and a machine with an anomaly is three times as likely. |
| Injection.TotalPositive | src/thingsboard/simulator.py:404-405 | Positive weights have a positive total. |
| Injection.BisectInterval | src/thingsboard/simulator.py:405 | The bisection lands on i exactly when the point lies in machine i's interval. |
| Injection.InjectedValueOvershoots | src/thingsboard/simulator.py:408-410 | The injected value is exactly 1.5 times the maximum, above the maximum, and never a value the sensor holds between cycles. |
| Injection.InjectedValueExact | src/thingsboard/simulator.py:410 | Rounding does not change 1.5 times any maximum in the range table. |
| Injection.HalfAgain | src/thingsboard/simulator.py:410 | 1.5 times an even number of hundredths rounds to itself. |
| Injection.InjectionSpec | src/thingsboard/simulator.py:400-412 | Nothing happens exactly when the draw is at least 0.01. An empty fleet raises exactly when it fires. An injection targets a machine of the fleet and one of that machine's sensors, with the out-of-range value. A machine without sensors gets no injection. |
| Injection.CountEventSpec | src/thingsboard/simulator.py:388-412 | Counting adds one to the chosen machine's counter and leaves every other counter as it was. |
| Registry.MachineId | src/thingsboard/simulator.py:206 | Defines `f"{kind}_{i:03d}"`. MachineIdsDiffer and KindIdsAt state its properties. |
| Registry.InitialValues | src/thingsboard/simulator.py:213-229 | Defines the value dictionary of a newly registered machine: one seeded value per sensor. InitialValuesSeeded states it. |
| Registry.Register | src/thingsboard/simulator.py:206-229 | Defines one pass of the inner loop of `_initialize_machines`. RegisterValid, RegisterStep and RegisterIndexed state what it does. |
| Registry.RegisterKind | src/thingsboard/simulator.py:205-229 | Defines the inner loop for one kind. RegisterKindValid, RegisterKindSpec and RegisterKindOrder state what it does. |
| Registry.Extend | src/thingsboard/simulator.py:202-231 | Defines the outer loop over the items of the dictionary. ExtendStep and BuildValid state what it does. |
| Registry.Build | src/thingsboard/simulator.py:178-231 | Defines the registry the constructor builds from the counts. BuildValid, BuildOrder and BuildEntries state what it holds. |
| Registry.KindIds | src/thingsboard/simulator.py:205-206 | A non-positive count asks for no ids. A count of n asks for n ids. |
| Registry.UpdateValuesValid | src/thingsboard/simulator.py:309-310 | Storing well-formed values for one machine keeps the registry invariant. |
| Registry.InitialValuesSeeded | src/thingsboard/simulator.py:212-229 | A newly registered machine has exactly its sensors' values, each in range. |
| Registry.RegisterValid | src/thingsboard/simulator.py:206-229 | One registration keeps the registry invariant: unique ids, shared keys, the kind's sensors, and values in range. |
| Registry.RegisterIndexed | src/thingsboard/simulator.py:206-213 | A registration keeps the key order free of duplicates and in step with the dictionaries. Re-registering an id keeps its place. |
| Registry.RegisterSeeded | src/thingsboard/simulator.py:210-229 | After a registration, every machine carries its kind's sensors, seeded in range. |
| Registry.RegisterKindValid | src/thingsboard/simulator.py:205-229 | Registering `kind_001` to `kind_<n>` keeps the registry invariant. |
| Registry.BuildValid | src/thingsboard/simulator.py:178-231 | For any machine counts, the new registry satisfies the invariant. |
| Registry.RegisterStep | src/thingsboard/simulator.py:206-229 | One registration sets exactly the three entries of its id and leaves every other machine untouched. |
| Registry.RegisterKindSpec | src/thingsboard/simulator.py:205-229 | Registering one kind adds exactly `kind_001` to `kind_<n>`, each with that kind's sensors and seeded values, and leaves other machines untouched. |
| Registry.RegisteredStep | src/thingsboard/simulator.py:205-229 | One more registration of the same kind extends what was registered by its id. |
| Registry.RegisterKindOrder | src/thingsboard/simulator.py:205-207 | When no id was present, the key order grows by exactly `kind_001` to `kind_<n>`, in that order. |
| Registry.RegisterKindFresh | src/thingsboard/simulator.py:205-207 | `kind_<n>` is still absent after `kind_001` to `kind_<n-1>` are registered. |
| Registry.KindIdsFresh | src/thingsboard/simulator.py:205-206 | `kind_<n>` is not among `kind_001` to `kind_<n-1>`. |
| Registry.MachineIdsDiffer | src/thingsboard/simulator.py:206 | Different indices give different ids. |
| Registry.KindIdsAt | src/thingsboard/simulator.py:205-206 | The j-th id of a kind is `kind_<j+1>`. |
| Registry.KindIdsMember | src/thingsboard/simulator.py:205-206 | Every id asked for under a kind is `kind_<i>` for some 1 <= i <= n. |
| Registry.KindIdsDisjoint | src/thingsboard/simulator.py:204-206 | Ids asked for under two different kinds never coincide. |
| Registry.AllIdsKinds | src/thingsboard/simulator.py:204-206 | Every id of the whole dictionary comes from one of its items. |
| Registry.BuildOrder | src/thingsboard/simulator.py:202-231 | For distinct kinds, the registry holds exactly the ids `<kind>_<i>` in creation order: as many machines as the counts add up to. |
| Registry.BuildEntries | src/thingsboard/simulator.py:202-231 | For distinct kinds, machine `<kind>_<i>` has that kind, that kind's sensor list and the values seeded for it. |
| Registry.ThreeMixersExample | src/thingsboard/simulator.py:205-206 | Example: three mixers are named `MIXER_001`, `MIXER_002` and `MIXER_003`. |
| Snapshots.StepMachine | src/thingsboard/simulator.py:274-310 | Defines the stored values after the sensor loop of `_generate_machine_data`. StepMachineSpec and StepMachineSeeded state what it does. |
| Snapshots.SnapshotOf | src/thingsboard/simulator.py:312-322 | Defines the dictionary that `_generate_machine_data` returns. SnapshotSpec states what it holds. |
| Snapshots.Evolve | src/thingsboard/simulator.py:244-251 | Stepping any machines keeps the set of machines with stored values. |
| Snapshots.Report | src/thingsboard/simulator.py:244-253 | `generate_sensor_data` returns one snapshot for exactly the stepped machines. |
| Snapshots.ReportOne | src/thingsboard/simulator.py:310-320 | Reporting one more sensor adds its reading and its unit and keeps the earlier entries. |
| Snapshots.EvolveNone | src/thingsboard/simulator.py:249-251 | Stepping no machine changes no stored value. |
| Snapshots.EvolveOne | src/thingsboard/simulator.py:249-251 | Stepping one more machine adds exactly its step. |
| Snapshots.EvolveSingle | src/thingsboard/simulator.py:245-246 | Stepping one machine changes only that machine's values. |
| Snapshots.ReportSingle | src/thingsboard/simulator.py:245-246 | Reporting one machine gives a dictionary with only its snapshot. |
| Snapshots.ReportNext | src/thingsboard/simulator.py:249-251 | Storing a machine's new values and reporting it adds its snapshot and keeps the earlier entries. |
| Snapshots.StepMachineSeeded | src/thingsboard/simulator.py:275-310 | A machine step keeps exactly its sensors' values, each in range. |
| Snapshots.StepMachineSpec | src/thingsboard/simulator.py:275-310 | A machine step moves each of its sensors by one evolution step of that sensor, and no other value. |
| Snapshots.EvolveValid | src/thingsboard/simulator.py:244-251 | For any draws, stepping any machines keeps the registry invariant: no stored value leaves its range. |
| Snapshots.SnapshotSpec | src/thingsboard/simulator.py:310-322 | A snapshot has one reading and one unit per sensor and nothing else, plus the machine type and the timestamp. |
| Snapshots.ReportedInRange | src/thingsboard/simulator.py:244-322 | Every reading that `generate_sensor_data` reports from a valid registry is the stored value and lies in its sensor's range. Each snapshot carries the clock reading taken for its own machine. |
| Simulator.NoEvents | src/thingsboard/simulator.py:388 | The counters start at zero, one per machine. |
| Simulator.HaltFrom | src/thingsboard/simulator.py:394-405 | A run from cycle i to cycle n stops somewhere between i and n. |
| Simulator.Apply | src/thingsboard/simulator.py:410 | Writing the injected reading into the report keeps the set of reported machines. |
| Simulator.Batch | src/thingsboard/simulator.py:415-418 | Each cycle makes one `send_telemetry` call per machine. |
| Simulator.CycleStep | src/thingsboard/simulator.py:394-418 | One cycle keeps the registry invariant and one counter per machine. |
| Simulator.Next | src/thingsboard/simulator.py:394-418 | The state after one more cycle keeps the registry invariant. |
| Simulator.Run | src/thingsboard/simulator.py:386-428 | After any number of cycles, the stored values keep the registry invariant. |
| Simulator.Trace | src/thingsboard/simulator.py:394-428 | The trace starts at the initial state. Every state in it keeps the invariant and is the successor of the one before it. |
| Simulator.Planned | src/thingsboard/simulator.py:386-394 | The loop never runs more cycles than are at hand. |
| Simulator.Sleeps | src/thingsboard/simulator.py:425-428 | One `time.sleep` per completed cycle. |
| Simulator.SensorSimulator.constructor | src/thingsboard/simulator.py:178-200 | `SensorSimulator(machine_count)` builds the registry from the given counts, or from the default counts (5, 10, 7, 8, 6), and satisfies the invariant. |
| Simulator.SensorSimulator.InitializeMachines | src/thingsboard/simulator.py:202-231 | The two nested loops register `<kind>_001` to `<kind>_<count>` for every item, in item order. |
| Simulator.SensorSimulator.RegisterMachine | src/thingsboard/simulator.py:206-229 | One pass of the inner loop records the kind, the sensor list and the seeded values of one id. |
| Simulator.SensorSimulator.SeedSensors | src/thingsboard/simulator.py:214-229 | The innermost loop seeds every sensor as the initial-value rule says. |
| Simulator.SensorSimulator.GenerateSensorData | src/thingsboard/simulator.py:233-253 | With a registered, non-empty id, only that machine is stepped. Otherwise every machine is stepped, in registry order. The result is the report of exactly the stepped machines, each stamped with its own clock reading, and the registry stays valid. |
| Simulator.SensorSimulator.GenerateNext | src/thingsboard/simulator.py:249-251 | One pass of the loop steps and reports the next machine. |
| Simulator.SensorSimulator.Simulate | src/thingsboard/simulator.py:326-437 | A zero interval with a positive duration raises before any cycle. Otherwise the loop runs the planned cycles, stopping early only at an `IndexError`. It leaves the stored values, counters, sent telemetry and sleeps of that many cycles of `Run`, with the clock read once per machine in every cycle. |
| Simulator.SensorSimulator.Advance | src/thingsboard/simulator.py:394-428 | One turn of the loop either moves to the next state of the trace or stops at the cycle that raised. |
| Simulator.SensorSimulator.Iterate | src/thingsboard/simulator.py:394-428 | One pass either raises, leaving everything as it was, or reaches the next state and sleeps for the rest of the interval. |
| Simulator.SensorSimulator.RunCycle | src/thingsboard/simulator.py:396-418 | A cycle generates every machine's data, injects, and sends only when connected and nothing raised. |
| Simulator.SensorSimulator.InjectAnomaly | src/thingsboard/simulator.py:400-412 | The anomaly block raises exactly when it fires on an empty fleet. Otherwise it changes the report and the counters as the injection rule says. |
| Simulator.SensorSimulator.SendAll | src/thingsboard/simulator.py:415-418 | The send loop sends every machine's snapshot once, in dictionary order. |
| Simulator.SensorSimulator.GenerateMachineData | src/thingsboard/simulator.py:255-324 | One machine's sensors are stepped and stored, and the snapshot reports the new values. No other machine changes, and the invariant is kept. |
| Simulator.StepSensors | src/thingsboard/simulator.py:275-320 | The sensor loop stores each sensor's step and records its reading and its unit. |
| Simulator.InjectionPicked | src/thingsboard/simulator.py:402-412 | Once the anomaly fires on a non-empty fleet, the event is the weighted machine's sensor, or nothing when that machine has no sensors. |
| Simulator.ExtendStep | src/thingsboard/simulator.py:204-205 | Each item of the dictionary registers its kind after the earlier items. |
| Simulator.TraceRun | src/thingsboard/simulator.py:394-428 | The trace agrees with `Run` at every prefix. |
| Simulator.NextStored | src/thingsboard/simulator.py:396-410 | The injection changes only the report, never a stored value: a cycle stores exactly the sensor steps. |
| Simulator.NextCounts | src/thingsboard/simulator.py:400-418 | One cycle adds at most one to each counter and sends one snapshot per machine. |
| Simulator.NextEvents | src/thingsboard/simulator.py:400-418 | A cycle's counters are those of its injection step. |
| Simulator.CountEventCounted | src/thingsboard/simulator.py:412 | An injection step raises each counter by zero or one. |
| Simulator.CountedAtMost | src/thingsboard/simulator.py:412 | Counters bounded by n before a step are bounded by n + 1 after it. |
| Simulator.RunCounts | src/thingsboard/simulator.py:388-418 | After n cycles, no counter exceeds n, and n times the number of machines snapshots have been sent. |
| Simulator.CycledNext | src/thingsboard/simulator.py:394-418 | A cycle either raises the empty-fleet `IndexError` and changes nothing, or moves the state to `Next`. |
| Simulator.HaltFromSpec | src/thingsboard/simulator.py:394-405 | Every cycle before the stopping point completes. A stop before n happened at a cycle that raised. |
| Simulator.HaltSpec | src/thingsboard/simulator.py:394-405 | A run stops at the first cycle that raises, and only there. |
| Simulator.PlannedGuard | src/thingsboard/simulator.py:386-394 | The loop guard `iteration_count < iterations or duration <= 0` holds exactly while fewer than the planned cycles have run. |
| Simulator.PlannedExamples | src/thingsboard/simulator.py:386 | Examples of the loop bound: a floor quotient for a positive duration, no cycles for a negative interval, every cycle for a non-positive duration. |
| Simulator.StepOne | src/thingsboard/simulator.py:275-310 | Stepping one more sensor of a duplicate-free list extends the partial step by that sensor. |
| VirtualSensors.Uniform | src/thingsboard/virtual_sensors.py:34 | Defines `random.uniform(a, b)` for a draw r as `a + (b - a) * r`. UniformWithin states its bounds. |
| VirtualSensors.Drifted | src/thingsboard/virtual_sensors.py:39-43 | Defines the sensor state after a drift d. DriftedWithin and DriftedNear state its properties. |
| VirtualSensors.SensorMap | src/thingsboard/virtual_sensors.py:92-98 | Defines the `sensors` map the loop builds, where a later entry overwrites an earlier one with the same id. SensorMapSpec and SensorMapStep state its properties. |
| VirtualSensors.GenerateMachineId | src/thingsboard/virtual_sensors.py:304-306 | Defines `f"{prefix}_{index:06d}"`. MachineIdSpec states its properties. |
| VirtualSensors.Created | src/thingsboard/virtual_sensors.py:315-320 | Defines the (type, id) pairs `create_machines` adds, item by item. CreatedStep, CreatedKinds and CreatedDistinct state its properties. |
| VirtualSensors.DriftAll | src/thingsboard/virtual_sensors.py:92-98 | One reading per sensor. |
| VirtualSensors.SensorMapStep | src/thingsboard/virtual_sensors.py:93-98 | Each reading writes its sensor's entry over the earlier map. |
| VirtualSensors.NoDuplicatesSnoc | src/thingsboard/virtual_sensors.py:76-78 | An appended list is free of duplicates exactly when the old list is and the new element is not in it. |
| VirtualSensors.VirtualSensor.constructor | src/thingsboard/virtual_sensors.py:14-34 | A new sensor stores its id, type, bounds and unit, and starts at `random.uniform(min, max)`. |
| VirtualSensors.VirtualSensor.GetReading | src/thingsboard/virtual_sensors.py:36-51 | A reading scales the stored value by `1 + drift` and clamps it, unrounded. It reports that value rounded, with the sensor's id, type and unit. |
| VirtualSensors.UniformWithin | src/thingsboard/virtual_sensors.py:32-34 | `random.uniform(a, b)` lies between a and b. |
| VirtualSensors.DriftBounds | src/thingsboard/virtual_sensors.py:39 | The drift is between -5% and +5%. |
| VirtualSensors.DriftedWithin | src/thingsboard/virtual_sensors.py:40-43 | After a reading, the sensor is within its bounds whatever its value was, and only its value has changed. |
| VirtualSensors.DriftedNear | src/thingsboard/virtual_sensors.py:39-43 | From within its bounds, a reading moves the value by at most 5% of itself. |
| VirtualSensors.ClampScaledNear | src/thingsboard/virtual_sensors.py:40-43 | Scaling by at most 5% and then clamping to bounds that hold the value moves it by at most 5% of itself. |
| VirtualSensors.ClampTowards | src/thingsboard/virtual_sensors.py:43 | Clamping to bounds that hold c never moves a value further from c. |
| VirtualSensors.ScaledNear | src/thingsboard/virtual_sensors.py:40 | Scaling by `1 + d` with abs(d) <= 0.05 moves a value by at most 5% of itself. |
| VirtualSensors.DriftAllSpec | src/thingsboard/virtual_sensors.py:92-98 | One `get_telemetry` keeps every sensor id, leaves every sensor within its bounds, and moves each value by at most 5%. |
| VirtualSensors.ReadingSpec | src/thingsboard/virtual_sensors.py:45-51 | A reading echoes the id, type and unit, and reports the value to within half a hundredth, never outside whole-number bounds. |
| VirtualSensors.SensorMapSpec | src/thingsboard/virtual_sensors.py:92-98 | The `sensors` map has a key exactly for each sensor id. With distinct ids, each sensor's entry is its own rounded value and unit. |
| VirtualSensors.CycleTelemetry | src/thingsboard/virtual_sensors.py:80-100 | After one `get_telemetry` of sensors with distinct ids, the `sensors` map holds exactly those ids, each with its sensor's new value rounded and its unit. |
| VirtualSensors.MachineClass | src/thingsboard/virtual_sensors.py:270-283 | The factory accepts exactly the five machine type names. |
| VirtualSensors.InitialStates | src/thingsboard/virtual_sensors.py:102-254 | A machine built from a class has one sensor per entry of the class. |
| VirtualSensors.MachineClasses | src/thingsboard/virtual_sensors.py:102-254 | The five classes attach 11, 17, 14, 12 and 13 sensors. Each has ordered bounds, 0..1 binary sensors and distinct id suffixes. |
| VirtualSensors.MixerClass | src/thingsboard/virtual_sensors.py:102-128 | The mixer attaches 11 well-formed sensors. |
| VirtualSensors.CncClass | src/thingsboard/virtual_sensors.py:130-166 | The CNC machine attaches 17 well-formed sensors. |
| VirtualSensors.PressClass | src/thingsboard/virtual_sensors.py:168-197 | The hydraulic press attaches 14 well-formed sensors. |
| VirtualSensors.ConveyorClass | src/thingsboard/virtual_sensors.py:199-224 | The conveyor attaches 12 well-formed sensors. |
| VirtualSensors.PumpClass | src/thingsboard/virtual_sensors.py:226-254 | The pump attaches 13 well-formed sensors. |
| VirtualSensors.InitialStatesSpec | src/thingsboard/virtual_sensors.py:102-254 | A new machine of a well-formed class starts with every sensor within its bounds and with distinct ids `<machine_id>_<suffix>`. |
| VirtualSensors.Machine.States | src/thingsboard/virtual_sensors.py:56-78 | One state per attached sensor. |
| VirtualSensors.Machine.constructor | src/thingsboard/virtual_sensors.py:56-74 | A new machine is running, not in maintenance, and has no sensors. |
| VirtualSensors.Machine.AddSensor | src/thingsboard/virtual_sensors.py:76-78 | The sensor goes at the end of the list and nothing else changes. The list stays free of shared objects exactly when the sensor was not on it. |
| VirtualSensors.Machine.GetTelemetry | src/thingsboard/virtual_sensors.py:80-100 | Every sensor is read once, in order. The record maps each sensor id to its new rounded value and unit. |
| VirtualSensors.NewMachine | src/thingsboard/virtual_sensors.py:102-254 | A machine class's constructor attaches its sensors in order, each starting from its draw. |
| VirtualSensors.CreateMachine | src/thingsboard/virtual_sensors.py:259-283 | The factory returns a new machine exactly for the five type names, built by that type's class. |
| VirtualSensors.KindRoster | src/thingsboard/virtual_sensors.py:315-320 | One item adds `count` machines for an accepted type, and none otherwise. |
| VirtualSensors.KindRosterStep | src/thingsboard/virtual_sensors.py:315-320 | One more pass of the inner loop adds `<type>_<i>` at the end. |
| VirtualSensors.CreatedStep | src/thingsboard/virtual_sensors.py:315 | Each item's machines come after the earlier items' machines. |
| VirtualSensors.MachineIdSpec | src/thingsboard/virtual_sensors.py:304-306 | `generate_machine_id` gives the prefix, an underscore and at least six digits that read back as the index. Two ids are equal exactly when prefix and index are. |
| VirtualSensors.CreatedKinds | src/thingsboard/virtual_sensors.py:308-322 | Every created machine has one of the five types and an id `<type>_<i>` with i below that type's count. |
| VirtualSensors.CreatedDistinct | src/thingsboard/virtual_sensors.py:308-322 | When the types are distinct, as dictionary keys are, no created machine id repeats. |
| VirtualSensors.Outbox | src/thingsboard/virtual_sensors.py:340-343 | One `send_telemetry` call per record. |
| VirtualSensors.UnsharedSnoc | src/thingsboard/virtual_sensors.py:300-302 | Adding a machine keeps sensor objects unshared exactly when its own sensors are distinct and new. |
| VirtualSensors.UnsharedApart | src/thingsboard/virtual_sensors.py:333-336 | When no sensor object is shared, reading one machine touches no other machine's sensors. |
| VirtualSensors.Connector.constructor | src/thingsboard/virtual_sensors.py:290-298 | A connector starts with no calls recorded. |
| VirtualSensors.Connector.SendTelemetry | src/thingsboard/virtual_sensors.py:340-343 | Each call is recorded after the earlier ones. |
| VirtualSensors.OutboxSnoc | src/thingsboard/virtual_sensors.py:333-343 | One more record adds one call at the end. |
| VirtualSensors.VirtualSensorSimulator.SensorLists | src/thingsboard/virtual_sensors.py:296 | One sensor list per machine. |
| VirtualSensors.VirtualSensorSimulator.Roster | src/thingsboard/virtual_sensors.py:296 | One (type, id) pair per machine. |
| VirtualSensors.VirtualSensorSimulator.constructor | src/thingsboard/virtual_sensors.py:290-298 | A new simulator has no machines and keeps the given connector. |
| VirtualSensors.VirtualSensorSimulator.AddMachine | src/thingsboard/virtual_sensors.py:300-302 | The machine goes at the end of the list. The simulator stays free of shared sensors exactly when the machine's sensors are distinct and new. |
| VirtualSensors.VirtualSensorSimulator.CreateMachines | src/thingsboard/virtual_sensors.py:308-322 | The existing machines are kept. After them come exactly the created machines, item by item, with ids `<type>_000000` upwards. Every new machine is a new object, running, not in maintenance, and carries its class's sensors in their initial states for its own draws. |
| VirtualSensors.VirtualSensorSimulator.CreateKind | src/thingsboard/virtual_sensors.py:315-320 | One item adds its type's machines, indices 0 to count - 1, or none for a rejected type. Each is a new object as the factory makes it: running, not in maintenance, with its class's sensors in their initial states. |
| VirtualSensors.VirtualSensorSimulator.CreateAndAdd | src/thingsboard/virtual_sensors.py:317-320 | A machine is added exactly when the factory accepts the type. It goes at the end, and it is a new object as the factory makes it: running, not in maintenance, with the class's sensors in their initial states. |
| VirtualSensors.OneMixerExample | src/thingsboard/virtual_sensors.py:308-322 | Example: creating one mixer gives one running machine `MIXER_000000`, not in maintenance, with eleven sensors. |
| VirtualSensors.VirtualSensorSimulator.SimulateCycle | src/thingsboard/virtual_sensors.py:324-345 | Every machine reports once, in list order: its sensors drift and its record is its telemetry. With a connector, each record's sensor map is sent under the machine's id, in order. |
| VirtualSensors.VirtualSensorSimulator.Report | src/thingsboard/virtual_sensors.py:333-343 | One machine reports and, with a connector, is sent. No other machine's sensors change. |

## Left out

- Logging, printing and the `KeyboardInterrupt` handler of `simulate`. An interrupt is modelled as the point where the given cycles end.
- `time.time()` and `time.sleep`: the clock is an integer millisecond parameter, and the sleeps are returned as the list of their arguments.
- VirtualSensors.Machine.GetTelemetry: every reading of one call gets the same `now`, where the source reads the clock once per reading (`virtual_sensors.py:50`). The record drops the readings' timestamps, so no output depends on it.
- The connector setup of `simulate` (`simulator.py:336-383`), the MQTT connect and the `disconnect_mqtt` in `finally`. The model has only a `connected` flag, and the sink is the list of `send_telemetry` calls.
- The connector classes (`connector.py`, `multi_device_connector.py`) are not part of this model. A connector is a recording object.
- `simulate_continuous` (`virtual_sensors.py:347-390`) and `save_simulation_data` (`virtual_sensors.py:392-411`): they only loop over `simulate_cycle`, sleep and write files.
- `operational_hours` and `installation_date` of a machine (`virtual_sensors.py:69-74`, `87-88`): they are random and never change, so the telemetry record omits them.
- Python floats and `round(x, 2)`: Round2 rounds exact reals half up. It does not model binary floating point or banker's rounding at exact ties.
- The `sensor_type.py` constants are not part of this model. Sensor kinds are a datatype, and snapshot keys are grouped by kind (reading, unit) instead of being string keys.
- Simulator.SensorSimulator.Simulate: the unbounded loop of a non-positive duration is cut at the end of the given cycles.
- VirtualSensors.VirtualSensorSimulator.SimulateCycle: requires that no sensor object is shared between or within machines (`Valid`). Aliased sensors, which the source would read twice, are not modelled.
- VirtualSensors.Machine.GetTelemetry: requires distinct sensor objects (`Valid`). The `sensors` map of machines with repeated sensor ids keeps the last entry; CycleTelemetry states the map for distinct ids.
- The five machine subclasses are modelled as specification tables plus one loop of `add_sensor` (`NewMachine`). The subclasses themselves are not modelled.
