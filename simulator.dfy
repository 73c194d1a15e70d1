/** The sensor-kind driven engine, `SensorSimulator`: a registry of machines
    keyed `<kind>_<NNN>`, one stored value per sensor, and the `simulate`
    loop that steps every machine once per cycle, now and then overwrites
    one reported reading with an out-of-range value, and hands every
    machine's snapshot to a sink. Randomness and the clock are parameters;
    the sink is the `sent` list. */
module Simulator {

  import opened Wrappers
  import opened Numeric
  import opened SensorTables
  import opened MachineType
  import opened Evolution
  import opened Injection
  import opened Registry
  import opened Snapshots

  /** The draws and clock readings of one `simulate` cycle: `step` for the
      sensor steps, `clock` for the timestamps, `fire` for the 1% anomaly
      check, `pick` for `random.choices`, `sensorPick` for `random.choice`,
      and `elapsed` for the seconds the cycle took. */
  datatype Cycle = Cycle(step: StepDraws, clock: Clock, fire: real, pick: Draw, sensorPick: Draw, elapsed: real)

  /** `{machine_id: 0 for machine_id in self.machines}` */
  function NoEvents(machines: map<string, string>): (e: map<string, nat>)
    ensures e.Keys == machines.Keys && forall id :: id in e ==> e[id] == 0
  {
    map id | id in machines :: 0
  }

  /** `random.choices` over an empty fleet raises `IndexError`. */
  predicate Crashes(order: seq<string>, c: Cycle)
  {
    order == [] && c.fire < 0.01
  }

  /** Where a run over cycles `i` to `n` stops: at the first cycle that
      raises, or at `n`. */
  function HaltFrom(order: seq<string>, cycles: seq<Cycle>, i: nat, n: nat): (h: nat)
    requires i <= n <= |cycles|
    ensures i <= h <= n
    decreases n - i
  {
    if i == n then n
    else if Crashes(order, cycles[i]) then i
    else HaltFrom(order, cycles, i + 1, n)
  }

  /** The number of cycles that complete when at most `n` are planned. */
  function Halt(order: seq<string>, cycles: seq<Cycle>, n: nat): nat
    requires n <= |cycles|
  {
    HaltFrom(order, cycles, 0, n)
  }

  /** The report after an injection: `data[m][sensor] = value`. */
  function Apply(data: map<string, Snapshot>, e: Event): (d: map<string, Snapshot>)
    ensures d.Keys == data.Keys
  {
    if e.Injected? && e.machine in data
    then data[e.machine := data[e.machine].(readings := data[e.machine].readings[e.sensor := e.value])]
    else data
  }

  /** The `send_telemetry` calls of one cycle, in dictionary order. */
  function Batch(order: seq<string>, data: map<string, Snapshot>): (b: seq<(string, Snapshot)>)
    requires forall id :: id in order ==> id in data
    ensures |b| == |order|
  {
    seq(|order|, k requires 0 <= k < |order| => (order[k], data[order[k]]))
  }

  /** Stored values, anomaly counters and sent telemetry after the given
      cycles of `simulate`, from fleet `f`. */
  datatype RunState = RunState(values: map<string, map<SensorType, real>>,
                               events: map<string, nat>,
                               sent: seq<(string, Snapshot)>)

  /** One cycle of `simulate` on fleet `f` with counters `events`: step
      every machine, report, inject, count; `sent` holds this cycle's
      `send_telemetry` calls. */
  function CycleStep(f: Fleet, events: map<string, nat>, c: Cycle): (r: RunState)
    requires FleetValid(f) && events.Keys == f.machines.Keys
    ensures FleetValid(f.(sensorValues := r.values)) && r.events.Keys == f.machines.Keys
  {
    EvolveValid(f, f.order, c.step);
    var h := f.(sensorValues := Evolve(f, f.order, c.step));
    var e := InjectionOf(f.order, f.machineSensors, events, c.fire, c.pick, c.sensorPick);
    RunState(h.sensorValues, CountEvent(events, e), Batch(f.order, Apply(Report(h, h.order, c.clock), e)))
  }

  /** What one cycle of `simulate` on fleet `f` with counters `events`
      leaves behind: the new stored `values`, whether it `raised`, the new
      counters, and the `batch` of `send_telemetry` calls. */
  ghost predicate Cycled(f: Fleet, events: map<string, nat>, c: Cycle, connected: bool,
                         values: map<string, map<SensorType, real>>, raised: bool,
                         events': map<string, nat>, batch: seq<(string, Snapshot)>)
    requires FleetValid(f) && events.Keys == f.machines.Keys
  {
    EvolveValid(f, f.order, c.step);
    var h := f.(sensorValues := Evolve(f, f.order, c.step));
    var e := InjectionOf(f.order, f.machineSensors, events, c.fire, c.pick, c.sensorPick);
    values == h.sensorValues && (raised <==> e == IndexError) && events' == CountEvent(events, e) &&
    batch == (if connected && !raised then Batch(f.order, Apply(Report(h, h.order, c.clock), e)) else [])
  }

  /** The state before the first cycle. */
  function Init(f: Fleet): RunState
  {
    RunState(f.sensorValues, NoEvents(f.machines), [])
  }

  /** `st` is a state the fleet `f` can be in: its stored values keep the
      fleet invariant and it has one counter per machine. */
  ghost predicate Fits(f: Fleet, st: RunState)
  {
    FleetValid(f.(sensorValues := st.values)) && st.events.Keys == f.machines.Keys
  }

  /** The state after one more cycle `c`. */
  function Next(f: Fleet, st: RunState, c: Cycle): (r: RunState)
    requires Fits(f, st)
    ensures Fits(f, r)
  {
    var s := CycleStep(f.(sensorValues := st.values), st.events, c);
    RunState(s.values, s.events, st.sent + s.sent)
  }

  /** The state after the first `n` cycles of `simulate` from fleet `f`. */
  function Run(f: Fleet, cycles: seq<Cycle>, n: nat): (r: RunState)
    requires FleetValid(f) && n <= |cycles|
    ensures Fits(f, r)
  {
    if n == 0 then Init(f) else Next(f, Run(f, cycles, n - 1), cycles[n - 1])
  }

  /** The states after each prefix of the first `n` cycles, one after the
      other. */
  function Trace(f: Fleet, cycles: seq<Cycle>, n: nat): (t: seq<RunState>)
    requires FleetValid(f) && n <= |cycles|
    ensures |t| == n + 1 && t[0] == Init(f)
    ensures forall k :: 0 <= k <= n ==> Fits(f, t[k])
    ensures forall k :: 0 <= k < n ==> t[k + 1] == Next(f, t[k], cycles[k])
  {
    if n == 0 then [Init(f)]
    else
      var t := Trace(f, cycles, n - 1);
      t + [Next(f, t[n - 1], cycles[n - 1])]
  }

  /** How many cycles `simulate` runs when `available` draws are at hand:
      `duration // interval` for a positive duration, every cycle (until
      interrupted) otherwise. */
  function Planned(interval: int, duration: int, available: nat): (n: nat)
    requires duration > 0 ==> interval != 0
    ensures n <= available
  {
    if duration > 0 then
      var q := FloorDiv(duration, interval);
      if q < 0 then 0 else if q > available then available else q
    else available
  }

  /** The `time.sleep` arguments of the first `n` cycles:
      `max(0, interval - elapsed)` per cycle. */
  function Sleeps(interval: int, cycles: seq<Cycle>, n: nat): (s: seq<real>)
    requires n <= |cycles|
    ensures |s| == n
  {
    if n == 0 then [] else Sleeps(interval, cycles, n - 1) + [Max(0.0, interval as real - cycles[n - 1].elapsed)]
  }

  class SensorSimulator {

    /** Key order of `machines`, which the other dictionaries share. */
    var order: seq<string>
    var machines: map<string, string>
    var machineSensors: map<string, seq<SensorType>>
    var sensorValues: map<string, map<SensorType, real>>

    function Model(): Fleet
      reads this
    {
      Fleet(order, machines, machineSensors, sensorValues)
    }

    ghost predicate Valid()
      reads this
    {
      FleetValid(Model())
    }

    /** `SensorSimulator(machine_count)`; `None` selects the default counts. */
    constructor (machineCount: Option<seq<(string, int)>>, seed: SeedDraws, bit: BitDraws)
      requires SeedsInUnit(seed)
      ensures Valid()
      ensures Model() == Build(machineCount.GetOr(DEFAULT_MACHINE_COUNT), seed, bit)
    {
      order, machines, machineSensors, sensorValues := [], map[], map[], map[];
      new;
      var counts := if machineCount.None? then DEFAULT_MACHINE_COUNT else machineCount.value;
      InitializeMachines(counts, seed, bit);
      BuildValid(counts, seed, bit);
    }

    /** Registers `<kind>_001` .. `<kind>_<count>` for every (kind, count). */
    method InitializeMachines(counts: seq<(string, int)>, seed: SeedDraws, bit: BitDraws)
      modifies this
      ensures Model() == Extend(old(Model()), counts, seed, bit)
    {
      for p := 0 to |counts|
        invariant Model() == Extend(old(Model()), counts[..p], seed, bit)
      {
        var kind, count := counts[p].0, counts[p].1;
        ghost var base := Model();
        var i := 1;
        while i <= count
          invariant 1 <= i <= (if count < 1 then 1 else count + 1)
          invariant Model() == RegisterKind(base, kind, i - 1, seed, bit)
        {
          RegisterMachine(kind, MachineId(kind, i), seed, bit);
          i := i + 1;
        }
        if count < 1 {
          assert Model() == base == RegisterKind(base, kind, count, seed, bit);
        } else {
          assert i - 1 == count;
        }
        ExtendStep(old(Model()), counts, p, seed, bit);
      }
      assert counts[..|counts|] == counts;
    }

    /** One pass of the inner loop of `_initialize_machines`: records the
        machine's kind and sensor list and seeds its values. */
    method RegisterMachine(kind: string, id: string, seed: SeedDraws, bit: BitDraws)
      modifies this
      ensures Model() == Register(old(Model()), kind, id, seed, bit)
    {
      if id !in machines {
        order := order + [id];
      }
      machines := machines[id := kind];
      var sensors := SensorsOf(kind);
      machineSensors := machineSensors[id := sensors];
      var vals := SeedSensors(sensors, seed(id), bit(id));
      sensorValues := sensorValues[id := vals];
    }

    /** The innermost loop of `_initialize_machines`: seeds each sensor in
        turn. */
    static method SeedSensors(sensors: seq<SensorType>, seed: SensorType -> real, bit: SensorType -> bool)
      returns (vals: map<SensorType, real>)
      ensures vals == InitialValues(sensors, seed, bit)
    {
      vals := map[];
      for j := 0 to |sensors|
        invariant vals == InitialValues(sensors[..j], seed, bit)
      {
        var s := sensors[j];
        var v;
        if IsBinary(s) {
          if IsSafety(s) {
            v := 1.0;
          } else {
            v := if bit(s) then 1.0 else 0.0;
          }
        } else {
          var rg := RangeOf(s);
          v := Round2(UniformPoint(rg, seed(s)));
        }
        vals := vals[s := v];
        assert sensors[..j + 1] == sensors[..j] + [s];
      }
      assert sensors[..|sensors|] == sensors;
    }

    /** The machines `generate_sensor_data(machine_id)` steps: the given
        one when it is a non-empty registered id, every machine otherwise. */
    function Targets(machineId: Option<string>): seq<string>
      reads this
    {
      if machineId.Some? && machineId.value != "" && machineId.value in machines then [machineId.value] else order
    }

    /** `generate_sensor_data(machine_id)`: steps the target machines in
        registry order and reports each of them. */
    method GenerateSensorData(machineId: Option<string>, draw: StepDraws, clock: Clock) returns (result: map<string, Snapshot>)
      requires Valid()
      modifies this
      ensures Valid()
      ensures order == old(order) && machines == old(machines) && machineSensors == old(machineSensors)
      ensures sensorValues == Evolve(old(Model()), old(Targets(machineId)), draw)
      ensures result == Report(Model(), Targets(machineId), clock)
    {
      result := map[];
      if machineId.Some? && machineId.value != "" && machineId.value in machines {
        var id := machineId.value;
        assert Targets(machineId) == [id];
        var d := GenerateMachineData(id, draw(id), clock(id));
        result := result[id := d];
        EvolveSingle(old(Model()), id, draw);
        ReportSingle(Model(), id, clock);
      } else {
        assert Targets(machineId) == order;
        assert Evolve(old(Model()), order[..0], draw) == sensorValues by {
          EvolveNone(old(Model()), draw);
        }
        for j := 0 to |order|
          invariant Valid()
          invariant order == old(order) && machines == old(machines) && machineSensors == old(machineSensors)
          invariant sensorValues == Evolve(old(Model()), order[..j], draw)
          invariant result == Report(Model(), order[..j], clock)
        {
          result := GenerateNext(j, draw, clock, result, old(Model()));
        }
        assert order[..|order|] == order;
      }
    }

    /** One pass of the loop of `generate_sensor_data`: step and report the
        machine `order[j]`, when the machines before it are done. */
    method GenerateNext(j: nat, draw: StepDraws, clock: Clock, result: map<string, Snapshot>, ghost f: Fleet)
      returns (result': map<string, Snapshot>)
      requires Valid() && j < |order| && FleetValid(f)
      requires order == f.order && machines == f.machines && machineSensors == f.machineSensors
      requires sensorValues == Evolve(f, order[..j], draw) && result == Report(Model(), order[..j], clock)
      modifies this
      ensures Valid()
      ensures order == old(order) && machines == old(machines) && machineSensors == old(machineSensors)
      ensures sensorValues == Evolve(f, order[..j + 1], draw)
      ensures result' == Report(Model(), order[..j + 1], clock)
    {
      var id := order[j];
      ghost var before := Model();
      assert order[..j + 1] == order[..j] + [id];
      assert id !in order[..j];
      var d := GenerateMachineData(id, draw(id), clock(id));
      result' := result[id := d];
      EvolveOne(f, order[..j], id, draw);
      ReportNext(before, order[..j], id, sensorValues[id], clock);
    }

    /** `simulate(interval, duration, config)` over the cycles `cycles`
        (the unbounded loop of a non-positive duration is cut where the
        cycles end, as an interrupt would). `ok` is false when the run
        raised: `ZeroDivisionError` for a zero interval and a positive
        duration, `IndexError` when an anomaly fires on an empty fleet.
        `connected` says whether a connector was configured; `sent` lists
        its `send_telemetry` calls and `sleeps` the `time.sleep` arguments. */
    method Simulate(interval: int, duration: int, cycles: seq<Cycle>, connected: bool)
      returns (ok: bool, ran: nat, events: map<string, nat>, sent: seq<(string, Snapshot)>, sleeps: seq<real>)
      requires Valid()
      modifies this
      ensures Valid()
      ensures order == old(order) && machines == old(machines) && machineSensors == old(machineSensors)
      ensures duration > 0 && interval == 0 ==>
        !ok && ran == 0 && sensorValues == old(sensorValues) && sent == [] && sleeps == []
      ensures !(duration > 0 && interval == 0) ==>
        ran == Halt(order, cycles, Planned(interval, duration, |cycles|)) &&
        (ok <==> ran == Planned(interval, duration, |cycles|)) &&
        var r := Run(old(Model()), cycles, ran);
        sensorValues == r.values && events == r.events &&
        sent == (if connected then r.sent else []) &&
        sleeps == Sleeps(interval, cycles, ran)
    {
      if duration > 0 && interval == 0 {
        return false, 0, map[], [], [];
      }
      var iterations := if duration > 0 then FloorDiv(duration, interval) else 0;
      events := map id | id in machines :: 0;
      ok, ran, sent, sleeps := true, 0, [], [];
      ghost var f0 := Model();
      ghost var planned := Planned(interval, duration, |cycles|);
      ghost var st := Init(f0);
      while ok && ran < |cycles| && (ran < iterations || duration <= 0)
        invariant Valid() && Progress(f0, cycles, interval, connected, planned, ok, ran, st, events, sent, sleeps)
        decreases |cycles| - ran, ok
      {
        PlannedGuard(interval, duration, |cycles|, ran);
        ok, ran, events, sent, sleeps, st := Advance(f0, cycles, interval, connected, planned, ran, st, events, sent, sleeps);
      }
      TraceRun(f0, cycles, |cycles|, ran);
      PlannedGuard(interval, duration, |cycles|, ran);
    }

    /** The invariant of the `simulate` loop after `ran` cycles from fleet
        `f0`: the object holds state `st` of the trace, the outbox and the
        sleeps are those of the cycles run, and the loop stops where the run
        halts. */
    ghost predicate Progress(f0: Fleet, cycles: seq<Cycle>, interval: int, connected: bool, planned: nat,
                             ok: bool, ran: nat, st: RunState, events: map<string, nat>,
                             sent: seq<(string, Snapshot)>, sleeps: seq<real>)
      reads this
    {
      FleetValid(f0) && planned <= |cycles| &&
      ran <= planned && (!ok ==> ran < planned) &&
      Halt(f0.order, cycles, planned) == (if ok then HaltFrom(f0.order, cycles, ran, planned) else ran) &&
      st == Trace(f0, cycles, |cycles|)[ran] &&
      Model() == f0.(sensorValues := st.values) && events == st.events &&
      sent == (if connected then st.sent else []) &&
      sleeps == Sleeps(interval, cycles, ran)
    }

    /** One turn of the `simulate` loop: run cycle `ran` and either move on
        to the next state of the trace or stop on the `IndexError`. */
    method Advance(ghost f0: Fleet, cycles: seq<Cycle>, interval: int, connected: bool, ghost planned: nat,
                   ran: nat, ghost st: RunState, events: map<string, nat>,
                   sent: seq<(string, Snapshot)>, sleeps: seq<real>)
      returns (ok': bool, ran': nat, events': map<string, nat>, sent': seq<(string, Snapshot)>,
               sleeps': seq<real>, ghost st': RunState)
      requires Valid() && ran < planned
      requires Progress(f0, cycles, interval, connected, planned, true, ran, st, events, sent, sleeps)
      modifies this
      ensures Valid() && Progress(f0, cycles, interval, connected, planned, ok', ran', st', events', sent', sleeps')
      ensures if ok' then ran' == ran + 1 else ran' == ran
    {
      ghost var next := Trace(f0, cycles, |cycles|)[ran + 1];
      var raised;
      raised, events', sent', sleeps' := Iterate(interval, cycles, ran, connected, events, sent, sleeps, f0, st, next);
      if raised {
        assert HaltFrom(f0.order, cycles, ran, planned) == ran;
        ok', ran', st' := false, ran, st;
      } else {
        assert HaltFrom(f0.order, cycles, ran, planned) == HaltFrom(f0.order, cycles, ran + 1, planned);
        ok', ran', st' := true, ran + 1, next;
      }
    }

    /** One pass of the `simulate` loop over cycle `cycles[ran]`, from the
        state `st` of fleet `f` to its successor `st'`: run the cycle, and
        when it did not raise, sleep for what is left of the interval. */
    method Iterate(interval: int, cycles: seq<Cycle>, ran: nat, connected: bool, events: map<string, nat>,
                   sent: seq<(string, Snapshot)>, sleeps: seq<real>, ghost f: Fleet, ghost st: RunState, ghost st': RunState)
      returns (raised: bool, events': map<string, nat>, sent': seq<(string, Snapshot)>, sleeps': seq<real>)
      requires ran < |cycles| && Fits(f, st) && st' == Next(f, st, cycles[ran])
      requires Model() == f.(sensorValues := st.values) && events == st.events
      requires sent == (if connected then st.sent else []) && sleeps == Sleeps(interval, cycles, ran)
      modifies this
      ensures raised <==> Crashes(f.order, cycles[ran])
      ensures raised ==> Model() == f.(sensorValues := st.values) && events' == st.events && sent' == sent && sleeps' == sleeps
      ensures !raised ==>
        Model() == f.(sensorValues := st'.values) && events' == st'.events &&
        sent' == (if connected then st'.sent else []) && sleeps' == Sleeps(interval, cycles, ran + 1)
    {
      var c := cycles[ran];
      var batch;
      raised, events', batch := RunCycle(c, events, connected);
      CycledNext(f, st, c, connected, sensorValues, raised, events', batch);
      sent', sleeps' := sent, sleeps;
      if !raised {
        sent' := sent + batch;
        sleeps' := sleeps + [Max(0.0, interval as real - c.elapsed)];
      }
    }

    /** One cycle of the `simulate` loop: generate every machine's data,
        inject, and send each machine's snapshot when a connector is set.
        `raised` reports the `IndexError` of an empty fleet. */
    method RunCycle(c: Cycle, events: map<string, nat>, connected: bool)
      returns (raised: bool, events': map<string, nat>, batch: seq<(string, Snapshot)>)
      requires Valid() && events.Keys == machines.Keys
      modifies this
      ensures Model() == old(Model()).(sensorValues := sensorValues)
      ensures Cycled(old(Model()), events, c, connected, sensorValues, raised, events', batch)
    {
      ghost var g := Model();
      assert Targets(None) == order;
      var data := GenerateSensorData(None, c.step, c.clock);
      raised, data, events' := InjectAnomaly(data, events, c.fire, c.pick, c.sensorPick);
      batch := [];
      if connected && !raised {
        batch := SendAll(data);
      }
    }

    /** The anomaly block of one `simulate` cycle: when `fire < 0.01`, pick a
        machine by weighted choice and, if it has sensors, overwrite one
        reading with `round(max * 1.5, 2)` and count the event. `raised`
        reports the `IndexError` of an empty fleet. */
    method InjectAnomaly(data: map<string, Snapshot>, events: map<string, nat>, fire: real, pick: real, sensorPick: real)
      returns (raised: bool, data': map<string, Snapshot>, events': map<string, nat>)
      requires forall id :: id in order ==> id in events && id in machineSensors && id in data
      requires 0.0 <= pick < 1.0 && 0.0 <= sensorPick < 1.0
      ensures var e := InjectionOf(order, machineSensors, events, fire, pick, sensorPick);
        (raised <==> e == IndexError) && data' == Apply(data, e) && events' == CountEvent(events, e)
      ensures raised <==> fire < 0.01 && order == []
    {
      ghost var e := InjectionOf(order, machineSensors, events, fire, pick, sensorPick);
      raised, data', events' := false, data, events;
      if fire < 0.01 {
        if |order| == 0 {
          raised := true;
        } else {
          var weights := Weights(order, events);
          var m := order[WeightedChoice(weights, pick)];
          var sensors := machineSensors[m];
          if |sensors| > 0 {
            var s := sensors[UniformIndex(|sensors|, sensorPick)];
            var value := InjectedValue(s);
            InjectionPicked(order, machineSensors, events, fire, pick, sensorPick);
            data' := data'[m := data'[m].(readings := data'[m].readings[s := value])];
            events' := events'[m := events'[m] + 1];
            assert m in events && events' == Record(events, m);
          } else {
            InjectionPicked(order, machineSensors, events, fire, pick, sensorPick);
          }
        }
      } else {
        assert e == NoEvent;
      }
    }

    /** The send loop of one `simulate` cycle: one `send_telemetry` call per
        machine, in dictionary order. */
    method SendAll(data: map<string, Snapshot>) returns (batch: seq<(string, Snapshot)>)
      requires forall id :: id in order ==> id in data
      ensures batch == Batch(order, data)
    {
      batch := [];
      for k := 0 to |order|
        invariant batch == Batch(order, data)[..k]
      {
        batch := batch + [(order[k], data[order[k]])];
        assert Batch(order, data)[..k + 1] == Batch(order, data)[..k] + [(order[k], data[order[k]])];
      }
      assert Batch(order, data)[..|order|] == Batch(order, data);
    }

    /** `_generate_machine_data(machine_id)`: steps every sensor of the
        machine, stores the new values, and reports them. */
    method GenerateMachineData(id: string, draw: SensorType -> real, now: int) returns (data: Snapshot)
      requires Valid() && id in machines
      modifies this
      ensures Valid()
      ensures order == old(order) && machines == old(machines) && machineSensors == old(machineSensors)
      ensures sensorValues == old(sensorValues)[id := StepMachine(machineSensors[id], old(sensorValues)[id], draw)]
      ensures data == SnapshotOf(machines[id], machineSensors[id], sensorValues[id], now)
    {
      var kind := machines[id];
      var sensors := machineSensors[id];
      SensorListsDistinct(kind);
      ghost var before := sensorValues[id];
      var vals, readings, units := StepSensors(sensors, sensorValues[id], draw);
      sensorValues := sensorValues[id := vals];
      data := Snapshot(readings, units, kind, now);
      StepMachineSeeded(sensors, before, draw);
      UpdateValuesValid(old(Model()), id, sensorValues[id]);
      assert Model() == old(Model()).(sensorValues := old(sensorValues)[id := sensorValues[id]]);
    }
  }

  /** The sensor loop of `_generate_machine_data` on the machine's value
      dictionary `vals`: step each sensor of `sensors` in turn, store its
      new value, and record its reading and its unit. */
  method StepSensors(sensors: seq<SensorType>, vals: map<SensorType, real>, draw: SensorType -> real)
    returns (vals': map<SensorType, real>, readings: map<SensorType, real>, units: map<SensorType, string>)
    requires NoDuplicates(sensors)
    ensures vals' == StepMachine(sensors, vals, draw)
    ensures readings == ReadingsOf(sensors, vals') && units == UnitsOf(sensors, UnitOf)
  {
    vals', readings, units := vals, map[], map[];
    assert StepMachine(sensors[..0], vals, draw) == vals;
    for j := 0 to |sensors|
      invariant vals' == StepMachine(sensors[..j], vals, draw)
      invariant readings == ReadingsOf(sensors[..j], vals') && units == UnitsOf(sensors[..j], UnitOf)
    {
      var s := sensors[j];
      var cur := if s in vals' then vals'[s] else 0.0;
      var v := StepValue(s, cur, draw(s));
      StepOne(sensors, j, vals, draw);
      ReportOne(sensors, j, vals', v, UnitOf);
      vals' := vals'[s := v];
      readings := readings[s := v];
      units := units[s := UnitOf(s)];
    }
    assert sensors[..|sensors|] == sensors;
  }

  /** The injection step once an anomaly fires on a non-empty fleet. */
  lemma InjectionPicked(ids: seq<string>, sensorsOf: map<string, seq<SensorType>>,
                        events: map<string, nat>, fire: real, pick: real, sensorPick: real)
    requires forall id :: id in ids ==> id in events && id in sensorsOf
    requires 0.0 <= pick < 1.0 && 0.0 <= sensorPick < 1.0 && fire < 0.01 && ids != []
    ensures var m := ids[WeightedChoice(Weights(ids, events), pick)];
      var e := InjectionOf(ids, sensorsOf, events, fire, pick, sensorPick);
      (sensorsOf[m] == [] ==> e == NoSensors(m)) &&
      (sensorsOf[m] != [] ==>
        var s := sensorsOf[m][UniformIndex(|sensorsOf[m]|, sensorPick)];
        e == Injected(m, s, InjectedValue(s)))
  {
  }

  lemma ExtendStep(f: Fleet, counts: seq<(string, int)>, p: nat, seed: SeedDraws, bit: BitDraws)
    requires p < |counts|
    ensures Extend(f, counts[..p + 1], seed, bit) ==
            RegisterKind(Extend(f, counts[..p], seed, bit), counts[p].0, counts[p].1, seed, bit)
  {
    assert counts[..p + 1][..p] == counts[..p];
  }

  /** The trace agrees with `Run` at every prefix. */
  lemma {:induction false} TraceRun(f: Fleet, cycles: seq<Cycle>, n: nat, k: nat)
    requires FleetValid(f) && n <= |cycles| && k <= n
    ensures Trace(f, cycles, n)[k] == Run(f, cycles, k)
  {
    if k > 0 {
      TraceRun(f, cycles, n, k - 1);
      assert Run(f, cycles, k) == Next(f, Run(f, cycles, k - 1), cycles[k - 1]);
    }
  }

  /** The injection only ever changes a reported snapshot, never a stored
      value: a cycle leaves exactly the stored values the sensor steps
      produce. */
  lemma NextStored(f: Fleet, st: RunState, c: Cycle)
    requires Fits(f, st)
    ensures Next(f, st, c).values == Evolve(f.(sensorValues := st.values), f.order, c.step)
  {
  }

  /** No counter is above `n`. */
  predicate CountsAtMost(events: map<string, nat>, n: nat)
  {
    forall id :: id in events ==> events[id] <= n
  }

  /** `after` has the counters of `before`, each the same or one more. */
  predicate Counted(before: map<string, nat>, after: map<string, nat>)
  {
    after.Keys == before.Keys && forall id :: id in before ==> before[id] <= after[id] <= before[id] + 1
  }

  /** One cycle adds at most one to each counter, and sends one snapshot
      per machine. */
  lemma NextCounts(f: Fleet, st: RunState, c: Cycle)
    requires Fits(f, st)
    ensures var r := Next(f, st, c);
      Counted(st.events, r.events) && |r.sent| == |st.sent| + |f.order|
  {
    var e := InjectionOf(f.order, f.machineSensors, st.events, c.fire, c.pick, c.sensorPick);
    NextEvents(f, st, c);
    InjectionSpec(f.order, f.machineSensors, st.events, c.fire, c.pick, c.sensorPick);
    CountEventCounted(st.events, e);
  }

  /** The counters and the sink after one cycle, from the injection step. */
  lemma NextEvents(f: Fleet, st: RunState, c: Cycle)
    requires Fits(f, st)
    ensures var r := Next(f, st, c);
      r.events == CountEvent(st.events, InjectionOf(f.order, f.machineSensors, st.events, c.fire, c.pick, c.sensorPick)) &&
      |r.sent| == |st.sent| + |f.order|
  {
  }

  lemma CountEventCounted(events: map<string, nat>, e: Event)
    requires e.Injected? ==> e.machine in events
    ensures Counted(events, CountEvent(events, e))
  {
    CountEventSpec(events, e);
  }

  lemma CountedAtMost(before: map<string, nat>, after: map<string, nat>, n: nat)
    requires CountsAtMost(before, n) && Counted(before, after)
    ensures CountsAtMost(after, n + 1)
  {
    forall id | id in after
      ensures after[id] <= n + 1
    {
      assert id in before;
    }
  }

  /** The anomaly counters start at zero and grow by at most one per cycle,
      and every cycle hands one snapshot per machine to the sink. */
  lemma {:induction false} RunCounts(f: Fleet, cycles: seq<Cycle>, n: nat)
    requires FleetValid(f) && n <= |cycles|
    ensures var r := Run(f, cycles, n); CountsAtMost(r.events, n) && |r.sent| == n * |f.order|
  {
    if n > 0 {
      var st := Run(f, cycles, n - 1);
      RunCounts(f, cycles, n - 1);
      var r := Next(f, st, cycles[n - 1]);
      assert Run(f, cycles, n) == r;
      NextCounts(f, st, cycles[n - 1]);
      CountedAtMost(st.events, r.events, n - 1);
      assert (n - 1) * |f.order| + |f.order| == n * |f.order|;
    }
  }

  /** A cycle either raises the `IndexError` of an empty fleet and leaves
      everything as it was, or moves the state on to `Next`. */
  lemma CycledNext(f: Fleet, st: RunState, c: Cycle, connected: bool,
                   values: map<string, map<SensorType, real>>, raised: bool,
                   events': map<string, nat>, batch: seq<(string, Snapshot)>)
    requires Fits(f, st)
    requires Cycled(f.(sensorValues := st.values), st.events, c, connected, values, raised, events', batch)
    ensures raised <==> Crashes(f.order, c)
    ensures raised ==> values == st.values && events' == st.events && batch == []
    ensures !raised ==>
      var n := Next(f, st, c);
      values == n.values && events' == n.events && (if connected then n.sent == st.sent + batch else batch == [])
  {
    if Crashes(f.order, c) {
      assert f.machines.Keys == {};
    }
  }

  lemma {:induction false} HaltFromSpec(order: seq<string>, cycles: seq<Cycle>, i: nat, n: nat)
    requires i <= n <= |cycles|
    ensures var h := HaltFrom(order, cycles, i, n);
      (forall k :: i <= k < h ==> !Crashes(order, cycles[k])) && (h < n ==> Crashes(order, cycles[h]))
    decreases n - i
  {
    if i < n && !Crashes(order, cycles[i]) {
      HaltFromSpec(order, cycles, i + 1, n);
    }
  }

  /** A run stops at the first cycle that raises, and only there: every
      cycle before it completes, and a run that stops short of `n` stopped
      on a cycle that raised. */
  lemma HaltSpec(order: seq<string>, cycles: seq<Cycle>, n: nat)
    requires n <= |cycles|
    ensures var h := Halt(order, cycles, n);
      h <= n && (forall k :: 0 <= k < h ==> !Crashes(order, cycles[k])) && (h < n ==> Crashes(order, cycles[h]))
  {
    HaltFromSpec(order, cycles, 0, n);
  }

  /** The loop guard of `simulate` holds exactly while fewer than the
      planned cycles have run. */
  lemma PlannedGuard(interval: int, duration: int, available: nat, ran: nat)
    requires duration > 0 ==> interval != 0
    ensures var iterations := if duration > 0 then FloorDiv(duration, interval) else 0;
      (ran < available && (ran < iterations || duration <= 0)) <==> ran < Planned(interval, duration, available)
  {
  }

  /** Examples of the loop bound `duration // interval`: a positive
      duration gives its floor quotient (capped by the cycles at hand), a
      negative interval none, and a non-positive duration every cycle. */
  lemma PlannedExamples()
    ensures Planned(2, 10, 100) == 5 && Planned(5, 60, 100) == 12 && Planned(7, 60, 100) == 8
    ensures Planned(2, 10, 3) == 3 && Planned(-5, 60, 100) == 0 && Planned(5, 0, 7) == 7 && Planned(5, -1, 7) == 7
  {
    assert FloorDiv(10, 2) == 5 && FloorDiv(60, 5) == 12 && FloorDiv(60, 7) == 8 && FloorDiv(60, -5) == -12;
  }

  /** Stepping one more sensor of a duplicate-free list extends the partial
      step by that sensor. */
  lemma StepOne(sensors: seq<SensorType>, j: nat, before: map<SensorType, real>, draw: SensorType -> real)
    requires j < |sensors| && NoDuplicates(sensors)
    ensures var s := sensors[j];
      var vals := StepMachine(sensors[..j], before, draw);
      Current(vals, s) == Current(before, s) &&
      StepMachine(sensors[..j + 1], before, draw) == vals[s := StepValue(s, Current(before, s), draw(s))]
  {
    var s := sensors[j];
    assert sensors[..j + 1] == sensors[..j] + [s];
    assert s !in sensors[..j];
  }
}
