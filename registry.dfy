/** The fleet that `SensorSimulator._initialize_machines` builds from a
    machine-count dictionary, as a value: machine ids in insertion order,
    each machine's kind, its sensor list and its current sensor values. */
module Registry {

  import opened Decimal
  import opened SensorTables
  import opened MachineType
  import opened Evolution

  /** The four dictionaries of a `SensorSimulator`: `order` is the key order
      of `machines`, which the other three share. */
  datatype Fleet = Fleet(order: seq<string>,
                         machines: map<string, string>,
                         machineSensors: map<string, seq<SensorType>>,
                         sensorValues: map<string, map<SensorType, real>>)

  const EMPTY_FLEET := Fleet([], map[], map[], map[])

  /** Draws used while seeding: `seed(id)(s)` is the `random.random()` of
      sensor `s` of machine `id`, `bit(id)(s)` its `random.choice([0, 1])`. */
  type SeedDraws = string -> SensorType -> real
  type BitDraws = string -> SensorType -> bool

  ghost predicate SeedsInUnit(seed: SeedDraws)
  {
    forall id, s :: 0.0 <= seed(id)(s) < 1.0
  }

  /** `f"{machine_type}_{i:03d}"` */
  function MachineId(kind: string, i: nat): string
  {
    PaddedId(kind, i, 3)
  }

  /** The sensor values of a freshly registered machine. */
  function InitialValues(sensors: seq<SensorType>, seed: SensorType -> real, bit: SensorType -> bool): map<SensorType, real>
  {
    map s | s in sensors :: InitialValue(s, seed(s), bit(s))
  }

  /** One pass of the inner loop of `_initialize_machines`: the id keeps its
      place in the key order if it is already present (dictionary semantics). */
  function Register(f: Fleet, kind: string, id: string, seed: SeedDraws, bit: BitDraws): Fleet
  {
    var sensors := SensorsOf(kind);
    Fleet(if id in f.machines then f.order else f.order + [id],
          f.machines[id := kind],
          f.machineSensors[id := sensors],
          f.sensorValues[id := InitialValues(sensors, seed(id), bit(id))])
  }

  /** Registers `kind_001` up to `kind_<n>`; nothing for `n <= 0`. */
  function RegisterKind(f: Fleet, kind: string, n: int, seed: SeedDraws, bit: BitDraws): Fleet
    decreases if n < 0 then 0 else n
  {
    if n <= 0 then f
    else Register(RegisterKind(f, kind, n - 1, seed, bit), kind, MachineId(kind, n), seed, bit)
  }

  /** `_initialize_machines(machine_count)` applied to a fleet `f`, the
      dictionary given as its list of items. */
  function Extend(f: Fleet, counts: seq<(string, int)>, seed: SeedDraws, bit: BitDraws): Fleet
  {
    if counts == [] then f
    else
      var last := counts[|counts| - 1];
      RegisterKind(Extend(f, counts[..|counts| - 1], seed, bit), last.0, last.1, seed, bit)
  }

  /** The fleet a new `SensorSimulator` holds: the machine counts
      registered on empty dictionaries. */
  function Build(counts: seq<(string, int)>, seed: SeedDraws, bit: BitDraws): Fleet
  {
    Extend(EMPTY_FLEET, counts, seed, bit)
  }

  /** The default `machine_count` of `SensorSimulator.__init__`. */
  const DEFAULT_MACHINE_COUNT: seq<(string, int)> :=
    [(MIXER, 5), (CNC_MACHINE, 10), (HYDRAULIC_PRESS, 7), (CONVEYOR_SYSTEM, 8), (PUMP_SYSTEM, 6)]

  /** Dictionary keys are distinct. */
  predicate DistinctKinds(counts: seq<(string, int)>)
  {
    forall p, q :: 0 <= p < q < |counts| ==> counts[p].0 != counts[q].0
  }

  /** The ids `kind_001` .. `kind_<n>` in order. */
  function KindIds(kind: string, n: int): (ids: seq<string>)
    ensures |ids| == if n < 0 then 0 else n
    decreases if n < 0 then 0 else n
  {
    if n <= 0 then [] else KindIds(kind, n - 1) + [MachineId(kind, n)]
  }

  /** All ids a machine-count dictionary asks for, in creation order. */
  function AllIds(counts: seq<(string, int)>): seq<string>
  {
    if counts == [] then []
    else AllIds(counts[..|counts| - 1]) + KindIds(counts[|counts| - 1].0, counts[|counts| - 1].1)
  }

  function MachineTotal(counts: seq<(string, int)>): nat
  {
    if counts == [] then 0
    else
      var n := counts[|counts| - 1].1;
      MachineTotal(counts[..|counts| - 1]) + (if n < 0 then 0 else n)
  }

  /** The values a machine of these sensors may hold between cycles. */
  ghost predicate WellSeeded(sensors: seq<SensorType>, vals: map<SensorType, real>)
  {
    (forall s :: s in vals <==> s in sensors) &&
    (forall s :: s in vals ==> InRange(s, vals[s]))
  }

  /** The invariant of a `SensorSimulator`'s dictionaries. */
  ghost predicate FleetValid(f: Fleet)
  {
    NoDuplicates(f.order) &&
    (forall id :: id in f.machines <==> id in f.order) &&
    f.machineSensors.Keys == f.machines.Keys &&
    f.sensorValues.Keys == f.machines.Keys &&
    (forall id :: id in f.machines ==> f.machineSensors[id] == SensorsOf(f.machines[id])) &&
    (forall id :: id in f.machines ==> WellSeeded(f.machineSensors[id], f.sensorValues[id]))
  }

  /** Replacing one machine's values by well-formed ones keeps the fleet
      invariant. */
  lemma UpdateValuesValid(f: Fleet, id: string, vals: map<SensorType, real>)
    requires FleetValid(f) && id in f.machines && WellSeeded(f.machineSensors[id], vals)
    ensures FleetValid(f.(sensorValues := f.sensorValues[id := vals]))
  {
  }

  lemma InitialValuesSeeded(sensors: seq<SensorType>, seed: SensorType -> real, bit: SensorType -> bool)
    requires forall s :: 0.0 <= seed(s) < 1.0
    ensures WellSeeded(sensors, InitialValues(sensors, seed, bit))
  {
    forall s | s in sensors
      ensures InRange(s, InitialValue(s, seed(s), bit(s)))
    {
      InitialValueSpec(s, seed(s), bit(s));
    }
  }

  lemma RegisterValid(f: Fleet, kind: string, id: string, seed: SeedDraws, bit: BitDraws)
    requires FleetValid(f) && SeedsInUnit(seed)
    ensures FleetValid(Register(f, kind, id, seed, bit))
  {
    RegisterIndexed(f, kind, id, seed, bit);
    RegisterSeeded(f, kind, id, seed, bit);
  }

  /** Registration keeps the key order duplicate-free and in step with the
      dictionaries. */
  lemma RegisterIndexed(f: Fleet, kind: string, id: string, seed: SeedDraws, bit: BitDraws)
    requires FleetValid(f)
    ensures var g := Register(f, kind, id, seed, bit);
      NoDuplicates(g.order) && (forall x :: x in g.machines <==> x in g.order) && KeysAgree(g)
  {
    var g := Register(f, kind, id, seed, bit);
    if id !in f.machines {
      forall i, j | 0 <= i < j < |g.order| ensures g.order[i] != g.order[j] {
        if j == |g.order| - 1 {
          assert g.order[i] in f.order;
        }
      }
    }
  }

  /** Registration gives the new machine its kind's sensors, seeded in range. */
  lemma RegisterSeeded(f: Fleet, kind: string, id: string, seed: SeedDraws, bit: BitDraws)
    requires FleetValid(f) && SeedsInUnit(seed)
    ensures var g := Register(f, kind, id, seed, bit);
      forall x :: x in g.machines ==>
        x in g.machineSensors && x in g.sensorValues &&
        g.machineSensors[x] == SensorsOf(g.machines[x]) && WellSeeded(g.machineSensors[x], g.sensorValues[x])
  {
    InitialValuesSeeded(SensorsOf(kind), seed(id), bit(id));
  }

  lemma {:induction false} RegisterKindValid(f: Fleet, kind: string, n: int, seed: SeedDraws, bit: BitDraws)
    requires FleetValid(f) && SeedsInUnit(seed)
    ensures FleetValid(RegisterKind(f, kind, n, seed, bit))
    decreases if n < 0 then 0 else n
  {
    if n > 0 {
      var g0 := RegisterKind(f, kind, n - 1, seed, bit);
      assert RegisterKind(f, kind, n, seed, bit) == Register(g0, kind, MachineId(kind, n), seed, bit);
      RegisterKindValid(f, kind, n - 1, seed, bit);
      RegisterValid(g0, kind, MachineId(kind, n), seed, bit);
    }
  }

  /** Whatever the machine counts, the registry satisfies the fleet invariant:
      ids are unique, every machine carries its kind's sensor list (an
      unknown kind carries none) and every sensor value starts in range. */
  lemma {:induction false} BuildValid(counts: seq<(string, int)>, seed: SeedDraws, bit: BitDraws)
    requires SeedsInUnit(seed)
    ensures FleetValid(Build(counts, seed, bit))
  {
    if counts != [] {
      var last := counts[|counts| - 1];
      BuildValid(counts[..|counts| - 1], seed, bit);
      RegisterKindValid(Build(counts[..|counts| - 1], seed, bit), last.0, last.1, seed, bit);
    }
  }

  predicate KeysAgree(f: Fleet)
  {
    f.machineSensors.Keys == f.machines.Keys && f.sensorValues.Keys == f.machines.Keys
  }

  /** One registration sets the three entries of `id` and touches no other
      machine. */
  lemma RegisterStep(f: Fleet, kind: string, id: string, seed: SeedDraws, bit: BitDraws)
    requires KeysAgree(f)
    ensures var g := Register(f, kind, id, seed, bit);
      KeysAgree(g) && g.machines.Keys == f.machines.Keys + {id} &&
      g.machines[id] == kind && g.machineSensors[id] == SensorsOf(kind) &&
      g.sensorValues[id] == InitialValues(SensorsOf(kind), seed(id), bit(id)) &&
      (forall x :: x in f.machines && x != id ==>
         g.machines[x] == f.machines[x] && g.machineSensors[x] == f.machineSensors[x] &&
         g.sensorValues[x] == f.sensorValues[x]) &&
      g.order == if id in f.machines then f.order else f.order + [id]
  {
  }

  /** `g` is `f` with exactly the machines `ids` added or overwritten, each
      of that kind with that kind's sensors and seeded values; other
      machines are untouched. */
  ghost predicate Registered(f: Fleet, g: Fleet, kind: string, ids: seq<string>, seed: SeedDraws, bit: BitDraws)
    requires KeysAgree(f)
  {
    KeysAgree(g) &&
    (forall id :: id in g.machines <==> id in f.machines || id in ids) &&
    (forall id :: id in ids ==>
       g.machines[id] == kind && g.machineSensors[id] == SensorsOf(kind) &&
       g.sensorValues[id] == InitialValues(SensorsOf(kind), seed(id), bit(id))) &&
    (forall id :: id in f.machines && id !in ids ==>
       g.machines[id] == f.machines[id] && g.machineSensors[id] == f.machineSensors[id] &&
       g.sensorValues[id] == f.sensorValues[id])
  }

  /** Registering `kind_001` .. `kind_<n>` adds exactly those ids, each of
      that kind with that kind's sensors and seeded values; other machines
      are untouched. */
  lemma {:induction false} RegisterKindSpec(f: Fleet, kind: string, n: int, seed: SeedDraws, bit: BitDraws)
    requires KeysAgree(f)
    ensures Registered(f, RegisterKind(f, kind, n, seed, bit), kind, KindIds(kind, n), seed, bit)
    decreases if n < 0 then 0 else n
  {
    if n > 0 {
      var g0 := RegisterKind(f, kind, n - 1, seed, bit);
      var id := MachineId(kind, n);
      assert RegisterKind(f, kind, n, seed, bit) == Register(g0, kind, id, seed, bit);
      assert KindIds(kind, n) == KindIds(kind, n - 1) + [id];
      RegisterKindSpec(f, kind, n - 1, seed, bit);
      RegisteredStep(f, g0, kind, KindIds(kind, n - 1), id, seed, bit);
    }
  }

  /** One more registration of the same kind extends what has been
      registered by that id. */
  lemma RegisteredStep(f: Fleet, g0: Fleet, kind: string, ids0: seq<string>, id: string, seed: SeedDraws, bit: BitDraws)
    requires KeysAgree(f) && Registered(f, g0, kind, ids0, seed, bit)
    ensures Registered(f, Register(g0, kind, id, seed, bit), kind, ids0 + [id], seed, bit)
  {
    var g := Register(g0, kind, id, seed, bit);
    var ids := ids0 + [id];
    RegisterStep(g0, kind, id, seed, bit);
    forall x | x in g.machines ensures x in f.machines || x in ids {
      if x != id { assert x in g0.machines; }
    }
    forall x | x in ids
      ensures g.machines[x] == kind && g.machineSensors[x] == SensorsOf(kind) &&
              g.sensorValues[x] == InitialValues(SensorsOf(kind), seed(x), bit(x))
    {
      if x != id { assert x in ids0; }
    }
    forall x | x in f.machines && x !in ids
      ensures g.machines[x] == f.machines[x] && g.machineSensors[x] == f.machineSensors[x] &&
              g.sensorValues[x] == f.sensorValues[x]
    {
      assert x != id && x !in ids0;
    }
  }

  /** When none of the ids was present, the key order grows by exactly
      `kind_001` .. `kind_<n>`. */
  lemma {:induction false} RegisterKindOrder(f: Fleet, kind: string, n: int, seed: SeedDraws, bit: BitDraws)
    requires KeysAgree(f)
    requires forall id :: id in KindIds(kind, n) ==> id !in f.machines
    ensures RegisterKind(f, kind, n, seed, bit).order == f.order + KindIds(kind, n)
    decreases if n < 0 then 0 else n
  {
    if n > 0 {
      var g0 := RegisterKind(f, kind, n - 1, seed, bit);
      var id := MachineId(kind, n);
      var ids0 := KindIds(kind, n - 1);
      assert RegisterKind(f, kind, n, seed, bit) == Register(g0, kind, id, seed, bit);
      assert KindIds(kind, n) == ids0 + [id];
      assert forall x :: x in ids0 ==> x !in f.machines by {
        forall x | x in ids0 ensures x in KindIds(kind, n) { }
      }
      RegisterKindOrder(f, kind, n - 1, seed, bit);
      RegisterKindFresh(f, kind, n, seed, bit);
      assert f.order + KindIds(kind, n) == (f.order + ids0) + [id];
    }
  }

  /** When none of the ids was present, `kind_<n>` is not yet registered
      after `kind_001` .. `kind_<n - 1>`. */
  lemma RegisterKindFresh(f: Fleet, kind: string, n: int, seed: SeedDraws, bit: BitDraws)
    requires KeysAgree(f) && n > 0
    requires forall id :: id in KindIds(kind, n) ==> id !in f.machines
    ensures MachineId(kind, n) !in RegisterKind(f, kind, n - 1, seed, bit).machines
  {
    RegisterKindSpec(f, kind, n - 1, seed, bit);
    KindIdsFresh(kind, n);
    assert MachineId(kind, n) in KindIds(kind, n);
  }

  /** `kind_<n>` is not among `kind_001` .. `kind_<n - 1>`. */
  lemma KindIdsFresh(kind: string, n: int)
    requires n > 0
    ensures MachineId(kind, n) !in KindIds(kind, n - 1)
  {
    var ids := KindIds(kind, n - 1);
    var id := MachineId(kind, n);
    forall j | 0 <= j < |ids| ensures ids[j] != id {
      KindIdsAt(kind, n - 1, j);
      MachineIdsDiffer(kind, j + 1, n);
    }
  }

  /** Different indices give different ids. */
  lemma MachineIdsDiffer(kind: string, i: nat, j: nat)
    requires i != j
    ensures MachineId(kind, i) != MachineId(kind, j)
  {
    if MachineId(kind, i) == MachineId(kind, j) {
      PaddedIdInjective(kind, i, kind, j, 3);
    }
  }

  lemma {:induction false} KindIdsAt(kind: string, n: int, j: nat)
    requires j < n
    ensures KindIds(kind, n)[j] == MachineId(kind, j + 1)
    decreases n
  {
    var ids0 := KindIds(kind, n - 1);
    assert KindIds(kind, n) == ids0 + [MachineId(kind, n)];
    if j < n - 1 {
      KindIdsAt(kind, n - 1, j);
      assert KindIds(kind, n)[j] == ids0[j];
    } else {
      assert KindIds(kind, n)[j] == MachineId(kind, n);
    }
  }

  /** Every id asked for under `kind` has the form `kind_<i>` with
      1 <= i <= n. */
  lemma KindIdsMember(kind: string, n: int, id: string)
    requires id in KindIds(kind, n)
    ensures exists i :: 1 <= i <= n && id == MachineId(kind, i)
  {
    var j :| 0 <= j < |KindIds(kind, n)| && KindIds(kind, n)[j] == id;
    KindIdsAt(kind, n, j);
  }

  /** Ids asked for under two different kinds never coincide. */
  lemma KindIdsDisjoint(k1: string, n1: int, k2: string, n2: int, id: string)
    requires k1 != k2 && id in KindIds(k1, n1)
    ensures id !in KindIds(k2, n2)
  {
    KindIdsMember(k1, n1, id);
    var i1 :| 1 <= i1 <= n1 && id == MachineId(k1, i1);
    if id in KindIds(k2, n2) {
      KindIdsMember(k2, n2, id);
      var i2 :| 1 <= i2 <= n2 && id == MachineId(k2, i2);
      PaddedIdInjective(k1, i1, k2, i2, 3);
    }
  }

  lemma {:induction false} AllIdsKinds(counts: seq<(string, int)>, id: string)
    requires id in AllIds(counts)
    ensures exists p :: 0 <= p < |counts| && id in KindIds(counts[p].0, counts[p].1)
  {
    var pre := counts[..|counts| - 1];
    var last := counts[|counts| - 1];
    if id in AllIds(pre) {
      AllIdsKinds(pre, id);
      var p :| 0 <= p < |pre| && id in KindIds(pre[p].0, pre[p].1);
      assert counts[p] == pre[p];
    } else {
      assert id in KindIds(last.0, last.1);
    }
  }

  /** For a dictionary of distinct kinds, the registry holds exactly the ids
      `<kind>_<i>` for every (kind, count) and 1 <= i <= count, in creation
      order, so it holds the sum of the counts machines. */
  lemma {:induction false} BuildOrder(counts: seq<(string, int)>, seed: SeedDraws, bit: BitDraws)
    requires DistinctKinds(counts)
    ensures var f := Build(counts, seed, bit);
      KeysAgree(f) &&
      f.order == AllIds(counts) &&
      (forall id :: id in f.machines <==> id in AllIds(counts)) &&
      |f.order| == MachineTotal(counts)
  {
    if counts != [] {
      var pre := counts[..|counts| - 1];
      var last := counts[|counts| - 1];
      var f := Build(pre, seed, bit);
      assert DistinctKinds(pre);
      BuildOrder(pre, seed, bit);
      RegisterKindSpec(f, last.0, last.1, seed, bit);
      forall id | id in KindIds(last.0, last.1) ensures id !in f.machines {
        if id in f.machines {
          AllIdsKinds(pre, id);
          var p :| 0 <= p < |pre| && id in KindIds(pre[p].0, pre[p].1);
          KindIdsDisjoint(last.0, last.1, pre[p].0, pre[p].1, id);
        }
      }
      RegisterKindOrder(f, last.0, last.1, seed, bit);
    }
  }

  /** For a dictionary of distinct kinds, machine `<kind>_<i>` is of that
      kind, carries that kind's sensor list and the values seeded for it. */
  lemma {:induction false} BuildEntries(counts: seq<(string, int)>, seed: SeedDraws, bit: BitDraws, p: nat, id: string)
    requires DistinctKinds(counts)
    requires p < |counts| && id in KindIds(counts[p].0, counts[p].1)
    ensures var f := Build(counts, seed, bit);
      KeysAgree(f) && id in f.machines && f.machines[id] == counts[p].0 &&
      f.machineSensors[id] == SensorsOf(counts[p].0) &&
      f.sensorValues[id] == InitialValues(SensorsOf(counts[p].0), seed(id), bit(id))
  {
    var pre := counts[..|counts| - 1];
    var last := counts[|counts| - 1];
    var f := Build(pre, seed, bit);
    assert Build(counts, seed, bit) == RegisterKind(f, last.0, last.1, seed, bit);
    assert DistinctKinds(pre);
    BuildOrder(pre, seed, bit);
    RegisterKindSpec(f, last.0, last.1, seed, bit);
    if p < |counts| - 1 {
      assert pre[p] == counts[p];
      BuildEntries(pre, seed, bit, p, id);
      KindIdsDisjoint(counts[p].0, counts[p].1, last.0, last.1, id);
      assert id in f.machines && id !in KindIds(last.0, last.1);
    } else {
      assert counts[p] == last;
    }
  }

  /** Example: three mixers are `MIXER_001`, `MIXER_002` and `MIXER_003`. */
  lemma ThreeMixersExample()
    ensures AllIds([(MIXER, 3)]) == ["MIXER_001", "MIXER_002", "MIXER_003"]
  {
    assert [(MIXER, 3)][..0] == [];
    assert DigitChar(1) == '1' && DigitChar(2) == '2' && DigitChar(3) == '3';
    assert Zeros(2) == "00";
    assert Digits(1) == "1" && Digits(2) == "2" && Digits(3) == "3";
    assert ZeroPad(1, 3) == "001";
    assert ZeroPad(2, 3) == "002";
    assert ZeroPad(3, 3) == "003";
    assert MachineId(MIXER, 1) == "MIXER_001";
    assert MachineId(MIXER, 2) == "MIXER_002";
    assert MachineId(MIXER, 3) == "MIXER_003";
    assert KindIds(MIXER, 0) == [];
    assert KindIds(MIXER, 1) == ["MIXER_001"];
    assert KindIds(MIXER, 2) == ["MIXER_001", "MIXER_002"];
  }
}
