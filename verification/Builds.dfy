/**
 * What one op of a build reads, records and writes (src/asset.rs): the captured
 * snapshot, the fingerprints recorded from it, the inputs the body sees, and
 * the materializations its output splits into.
 */
module Builds {
  import opened Prelude
  import opened Assets
  import opened Freshness

  /** The keys of a dep one build reads. */
  function ReadKeys(sets: Sets, maps: map<Name, Mapping>, dep: Name, key: Option<Key>): seq<Key>
    requires dep in sets
  {
    Resolve(MappingOf(maps, dep), key, sets[dep]).keys
  }

  predicate Captures(sets: Sets, op: OpMeta, key: Option<Key>, d: Cell) {
    && d.asset in op.deps
    && if d.asset in sets then d.key.Some? && d.key.value in ReadKeys(sets, op.maps, d.asset, key) else d.key.None?
  }

  /** The rows a build captures before its body runs. */
  function Snapshot(sets: Sets, op: OpMeta, key: Option<Key>, mats: Mats): Mats {
    map d | d in mats && Captures(sets, op, key, d) :: mats[d]
  }

  // A replay reads the rows its original captured, except those this run has already rebuilt.
  function ReplaySnapshot(saved: Mats, current: Mats, run: string): Mats {
    saved + map d | d in current && current[d].run == Some(run) :: current[d]
  }

  /** The rows a body and its record are given: a replay's saved ones, or what the store now holds. */
  function Captured(sets: Sets, op: OpMeta, key: Option<Key>, mats: Mats, run: string, saved: Option<Mats>): Mats {
    var current := Snapshot(sets, op, key, mats);
    if saved.Some? then ReplaySnapshot(saved.value, current, run) else current
  }

  function FpValue(fp: Option<Print>): Value {
    if fp.Some? then Text(fp.value) else Null
  }

  /** The fingerprint, or one per key, recorded for one dep. */
  function Recorded(sets: Sets, op: OpMeta, key: Option<Key>, snap: Mats, dep: Name): Value {
    if dep !in sets then FpValue(PrintOf(snap, Cell(dep, None)))
    else
      var keys := ReadKeys(sets, op.maps, dep, key);
      if MappingOf(op.maps, dep).ReadsOne() then
        if keys == [] then Null else FpValue(PrintOf(snap, Cell(dep, Some(keys[0]))))
      else Object(map k | k in keys :: FpValue(PrintOf(snap, Cell(dep, Some(k)))))
  }

  function RecordedInputs(sets: Sets, op: OpMeta, key: Option<Key>, snap: Mats): map<Name, Value> {
    map dep | dep in op.deps :: Recorded(sets, op, key, snap, dep)
  }

  /** What the body is handed for one dep; nothing at all when a single key did not arrive. */
  function Input(sets: Sets, op: OpMeta, key: Option<Key>, snap: Mats, dep: Name): Option<Value> {
    if dep !in sets then Some(if Cell(dep, None) in snap then snap[Cell(dep, None)].value else Null)
    else
      var keys := ReadKeys(sets, op.maps, dep, key);
      if MappingOf(op.maps, dep).ReadsOne() then
        if keys != [] && Cell(dep, Some(keys[0])) in snap then Some(snap[Cell(dep, Some(keys[0]))].value) else None
      else Some(Object(map k | k in keys && Cell(dep, Some(k)) in snap :: snap[Cell(dep, Some(k))].value))
  }

  function Inputs(sets: Sets, op: OpMeta, key: Option<Key>, snap: Mats): map<Name, Value> {
    map dep | dep in op.deps && Input(sets, op, key, snap, dep).Some? :: Input(sets, op, key, snap, dep).value
  }

  // A source's data is outside the store; its fingerprint says what a body reads there.
  function Outside(reg: Registry, op: OpMeta, snap: Mats): map<Name, Print> {
    map dep | dep in op.deps && reg.IsSource(dep) && Cell(dep, None) in snap
      :: snap[Cell(dep, None)].fp
  }

  /** Op bodies: deterministic in the key, the inputs and the outside data. */
  datatype World = World(body: (Name, Option<Key>, map<Name, Value>, map<Name, Print>) -> Value)

  function Output(reg: Registry, sets: Sets, world: World, op: OpMeta, key: Option<Key>, snap: Mats): Value {
    world.body(op.name, key, Inputs(sets, op, key, snap), Outside(reg, op, snap))
  }

  // ----------------------------------------------------------- what these come to, cell by cell

  /** A build at `key` reads this key of a dep that has keys. */
  ghost predicate ReadsKey(sets: Sets, op: OpMeta, key: Option<Key>, dep: Name, k: Key)
    requires dep in sets
  {
    if dep !in op.maps then key == Some(k)
    else
      match op.maps[dep]
      case Identity => key == Some(k)
      case All => k in sets[dep]
      case Covering(window) => key.Some? && k in window(key.value) && k in sets[dep]
      case Offset(step) => key.Some? && step(key.value) == Some(k) && k in sets[dep]
  }

  lemma ReadsKeyIff(sets: Sets, op: OpMeta, key: Option<Key>, dep: Name, k: Key)
    requires dep in sets
    ensures k in ReadKeys(sets, op.maps, dep, key) <==> ReadsKey(sets, op, key, dep, k)
    ensures MappingOf(op.maps, dep).ReadsOne() && ReadsKey(sets, op, key, dep, k) ==>
              ReadKeys(sets, op.maps, dep, key) == [k]
  {
    ReadsSay(op.maps, dep, key, sets[dep], k);
  }

  // Read through a mapping that names many keys, rather than at one.
  predicate ReadsMany(op: OpMeta, dep: Name) {
    dep in op.maps && (op.maps[dep].All? || op.maps[dep].Covering?)
  }

  ghost predicate ReadsDep(sets: Sets, op: OpMeta, key: Option<Key>, d: Cell) {
    && d.asset in op.deps
    && (d.asset !in sets ==> d.key.None?)
    && (d.asset in sets ==> d.key.Some? && ReadsKey(sets, op, key, d.asset, d.key.value))
  }

  /**
   * The rows a build is given: those the store holds of what it reads; for a
   * replay those its original saved, but for the ones this run has rebuilt.
   */
  ghost predicate Gathered(sets: Sets, op: OpMeta, key: Option<Key>, mats: Mats, run: string, saved: Option<Mats>,
                           snap: Mats) {
    && (saved.None? ==>
          && (forall d :: d in snap <==> d in mats && ReadsDep(sets, op, key, d))
          && forall d :: d in snap ==> snap[d] == mats[d])
    && (saved.Some? ==>
          forall d ::
            if d in mats && mats[d].run == Some(run) && ReadsDep(sets, op, key, d) then d in snap && snap[d] == mats[d]
            else (d in snap <==> d in saved.value) && (d in snap ==> snap[d] == saved.value[d]))
  }

  lemma CapturedGathered(sets: Sets, op: OpMeta, key: Option<Key>, mats: Mats, run: string, saved: Option<Mats>)
    ensures Gathered(sets, op, key, mats, run, saved, Captured(sets, op, key, mats, run, saved))
  {
    forall d ensures Captures(sets, op, key, d) <==> ReadsDep(sets, op, key, d) {
      if d.asset in sets && d.key.Some? {
        ReadsKeyIff(sets, op, key, d.asset, d.key.value);
      }
    }
  }

  /**
   * What a body is handed, dep by dep: the whole value, null when there is none;
   * the value at the one key read, and nothing when it did not arrive; or the
   * values that arrived, by key.
   */
  ghost predicate HandedOver(sets: Sets, op: OpMeta, key: Option<Key>, snap: Mats, inputs: map<Name, Value>) {
    && (forall dep :: dep in inputs ==> dep in op.deps)
    && forall dep :: dep in op.deps ==> DepHandedOver(sets, op, key, snap, inputs, dep)
  }

  ghost predicate DepHandedOver(sets: Sets, op: OpMeta, key: Option<Key>, snap: Mats, inputs: map<Name, Value>,
                                dep: Name) {
    if dep !in sets then
      dep in inputs && inputs[dep] == if Cell(dep, None) in snap then snap[Cell(dep, None)].value else Null
    else if ReadsMany(op, dep) then
      && dep in inputs && inputs[dep].Object?
      && (forall k :: k in inputs[dep].fields <==> ReadsKey(sets, op, key, dep, k) && Cell(dep, Some(k)) in snap)
      && forall k :: k in inputs[dep].fields ==> inputs[dep].fields[k] == snap[Cell(dep, Some(k))].value
    else
      && (dep in inputs <==> exists k :: ReadsKey(sets, op, key, dep, k) && Cell(dep, Some(k)) in snap)
      && forall k :: ReadsKey(sets, op, key, dep, k) && Cell(dep, Some(k)) in snap ==>
           inputs[dep] == snap[Cell(dep, Some(k))].value
  }

  lemma DepInputHandedOver(sets: Sets, op: OpMeta, key: Option<Key>, snap: Mats, dep: Name)
    requires dep in op.deps
    ensures DepHandedOver(sets, op, key, snap, Inputs(sets, op, key, snap), dep)
  {
    if dep in sets {
      forall k
        ensures k in ReadKeys(sets, op.maps, dep, key) <==> ReadsKey(sets, op, key, dep, k)
        ensures !ReadsMany(op, dep) && ReadsKey(sets, op, key, dep, k) ==> ReadKeys(sets, op.maps, dep, key) == [k]
      {
        ReadsKeyIff(sets, op, key, dep, k);
      }
      var keys := ReadKeys(sets, op.maps, dep, key);
      if !ReadsMany(op, dep) && keys != [] {
        assert keys[0] in keys;
      }
    }
  }

  lemma InputsHandedOver(sets: Sets, op: OpMeta, key: Option<Key>, snap: Mats)
    ensures HandedOver(sets, op, key, snap, Inputs(sets, op, key, snap))
  {
    forall dep | dep in op.deps ensures DepHandedOver(sets, op, key, snap, Inputs(sets, op, key, snap), dep) {
      DepInputHandedOver(sets, op, key, snap, dep);
    }
  }

  // A fingerprint as it is recorded: null when the row was not there.
  predicate Stamps(v: Value, snap: Mats, d: Cell) {
    v == if d in snap then Text(snap[d].fp) else Null
  }

  /**
   * What a row says it consumed, dep by dep: the fingerprint of the whole value
   * or of the one key read, or an object with that of every key read, whether or
   * not its row was there.
   */
  ghost predicate NotedDown(sets: Sets, op: OpMeta, key: Option<Key>, snap: Mats, inputs: map<Name, Value>) {
    && (forall dep :: dep in inputs <==> dep in op.deps)
    && forall dep :: dep in op.deps && dep in inputs ==> DepNotedDown(sets, op, key, snap, inputs[dep], dep)
  }

  ghost predicate DepNotedDown(sets: Sets, op: OpMeta, key: Option<Key>, snap: Mats, noted: Value, dep: Name) {
    if dep !in sets then Stamps(noted, snap, Cell(dep, None))
    else if ReadsMany(op, dep) then
      && noted.Object?
      && (forall k :: k in noted.fields <==> ReadsKey(sets, op, key, dep, k))
      && forall k :: k in noted.fields ==> Stamps(noted.fields[k], snap, Cell(dep, Some(k)))
    else
      && (forall k :: ReadsKey(sets, op, key, dep, k) ==> Stamps(noted, snap, Cell(dep, Some(k))))
      && ((forall k :: !ReadsKey(sets, op, key, dep, k)) ==> noted == Null)
  }

  lemma DepRecordedNotedDown(sets: Sets, op: OpMeta, key: Option<Key>, snap: Mats, dep: Name)
    requires dep in op.deps
    ensures DepNotedDown(sets, op, key, snap, Recorded(sets, op, key, snap, dep), dep)
  {
    if dep in sets {
      forall k
        ensures k in ReadKeys(sets, op.maps, dep, key) <==> ReadsKey(sets, op, key, dep, k)
        ensures !ReadsMany(op, dep) && ReadsKey(sets, op, key, dep, k) ==> ReadKeys(sets, op.maps, dep, key) == [k]
      {
        ReadsKeyIff(sets, op, key, dep, k);
      }
      var keys := ReadKeys(sets, op.maps, dep, key);
      if !ReadsMany(op, dep) && keys != [] {
        assert keys[0] in keys;
      }
    }
  }

  lemma RecordedNotedDown(sets: Sets, op: OpMeta, key: Option<Key>, snap: Mats)
    ensures NotedDown(sets, op, key, snap, RecordedInputs(sets, op, key, snap))
  {
    forall dep | dep in op.deps ensures DepNotedDown(sets, op, key, snap, Recorded(sets, op, key, snap, dep), dep) {
      DepRecordedNotedDown(sets, op, key, snap, dep);
    }
  }

  /** The fingerprints of the sources an op reads, which say what its body finds there. */
  ghost predicate SeesOutside(reg: Registry, op: OpMeta, snap: Mats, outside: map<Name, Print>) {
    && (forall dep :: dep in outside <==> dep in op.deps && reg.IsSource(dep) && Cell(dep, None) in snap)
    && forall dep :: dep in outside ==> outside[dep] == snap[Cell(dep, None)].fp
  }

  // ----------------------------------------------------------- splitting an output

  /** Whether an output names exactly the assets its op makes. */
  predicate Splits(produces: seq<Name>, output: Value) {
    |produces| == 1 || (output.Object? && output.fields.Keys == set a | a in produces)
  }

  function Part(produces: seq<Name>, output: Value, a: Name): Value {
    if |produces| == 1 then output
    else if output.Object? && a in output.fields then output.fields[a]
    else Null
  }

  // An op that makes several assets must say which value is whose, for each and no other.
  ghost predicate NamesEach(produces: seq<Name>, output: Value) {
    |produces| != 1 ==> output.Object? && forall a :: a in output.fields <==> a in produces
  }

  datatype SplitError = NotAnObject | Discrepancy(missing: seq<Name>, extra: set<Name>)

  method SplitOutput(produces: seq<Name>, output: Value) returns (r: Result<seq<(Name, Value)>, SplitError>)
    ensures r.Ok? <==> Splits(produces, output)
    ensures r.Ok? ==> |r.value| == |produces|
    ensures r.Ok? ==> forall i :: 0 <= i < |produces| ==>
              r.value[i] == (produces[i], Part(produces, output, produces[i]))
    ensures r.Err? && r.error.NotAnObject? <==> |produces| != 1 && !output.Object?
    ensures r.Ok? <==> NamesEach(produces, output)
    ensures r.Ok? ==> forall i :: 0 <= i < |produces| ==>
              && r.value[i].0 == produces[i] && (|produces| == 1 ==> r.value[i].1 == output)
              && (|produces| != 1 ==> produces[i] in output.fields && r.value[i].1 == output.fields[produces[i]])
    ensures r.Err? && r.error.Discrepancy? ==> output.Object?
    ensures r.Err? && r.error.Discrepancy? ==>
              forall a :: a in r.error.missing <==> a in produces && a !in output.fields
    ensures r.Err? && r.error.Discrepancy? ==>
              forall a :: a in r.error.extra <==> a in output.fields && a !in produces
  {
    SplitsIffNamesEach(produces, output);
    if |produces| == 1 {
      return Ok([(produces[0], output)]);
    }
    if !output.Object? {
      return Err(NotAnObject);
    }
    var missing: seq<Name> := [];
    var values: seq<(Name, Value)> := [];
    for i := 0 to |produces|
      invariant forall a :: a in missing <==> a in produces[..i] && a !in output.fields
      invariant |values| == i
      invariant forall k :: 0 <= k < i ==> values[k] == (produces[k], Part(produces, output, produces[k]))
    {
      assert produces[..i + 1] == produces[..i] + [produces[i]];
      if produces[i] !in output.fields {
        missing := missing + [produces[i]];
      }
      values := values + [(produces[i], Part(produces, output, produces[i]))];
    }
    assert produces[..|produces|] == produces;
    var extra := set a | a in output.fields && a !in produces;
    if missing == [] && extra == {} {
      assert forall a :: a in produces ==> a !in missing;
      assert forall a :: a in output.fields ==> a !in extra;
      return Ok(values);
    }
    if missing != [] {
      assert missing[0] in missing;
    } else {
      var a :| a in extra;
    }
    return Err(Discrepancy(missing, extra));
  }

  // ----------------------------------------------------------- capture and record

  method CaptureKeys(mats: Mats, dep: Name, keys: seq<Key>, snap0: Mats) returns (snap: Mats)
    requires forall d :: d in snap0 ==> d in mats && snap0[d] == mats[d]
    ensures forall d :: d in snap ==> d in mats && snap[d] == mats[d]
    ensures forall d :: d in snap <==> d in snap0 || (d in mats && d.asset == dep && d.key.Some? && d.key.value in keys)
  {
    snap := snap0;
    for t := 0 to |keys|
      invariant forall d :: d in snap ==> d in mats && snap[d] == mats[d]
      invariant forall d :: d in snap <==>
                  d in snap0 || (d in mats && d.asset == dep && d.key.Some? && d.key.value in keys[..t])
    {
      assert keys[..t + 1] == keys[..t] + [keys[t]];
      var d := Cell(dep, Some(keys[t]));
      if d in mats {
        snap := snap[d := mats[d]];
      }
    }
    assert keys[..|keys|] == keys;
  }

  method CaptureDep(sets: Sets, op: OpMeta, key: Option<Key>, mats: Mats, dep: Name, snap0: Mats) returns (snap: Mats)
    requires dep in op.deps
    requires forall d :: d in snap0 ==> d in mats && snap0[d] == mats[d]
    ensures forall d :: d in snap ==> d in mats && snap[d] == mats[d]
    ensures forall d :: d in snap <==> d in snap0 || (d in mats && d.asset == dep && Captures(sets, op, key, d))
  {
    if dep in sets {
      snap := CaptureKeys(mats, dep, ReadKeys(sets, op.maps, dep, key), snap0);
    } else {
      snap := snap0;
      if Cell(dep, None) in mats {
        snap := snap[Cell(dep, None) := mats[Cell(dep, None)]];
      }
    }
  }

  method CaptureLinks(sets: Sets, op: OpMeta, key: Option<Key>, mats: Mats) returns (snap: Mats)
    ensures snap == Snapshot(sets, op, key, mats)
  {
    snap := map[];
    for t := 0 to |op.deps|
      invariant forall d :: d in snap ==> d in mats && snap[d] == mats[d]
      invariant forall d :: d in snap <==> d in mats && d.asset in op.deps[..t] && Captures(sets, op, key, d)
    {
      assert op.deps[..t + 1] == op.deps[..t] + [op.deps[t]];
      snap := CaptureDep(sets, op, key, mats, op.deps[t], snap);
    }
    assert op.deps[..|op.deps|] == op.deps;
  }

  /** The snapshot a build captures: a replay's saved rows, kept but for what this run rebuilt. */
  method CaptureInputs(sets: Sets, op: OpMeta, key: Option<Key>, mats: Mats, run: string,
                       saved: Option<Mats>) returns (snap: Mats)
    ensures snap == Captured(sets, op, key, mats, run, saved) && Gathered(sets, op, key, mats, run, saved, snap)
  {
    CapturedGathered(sets, op, key, mats, run, saved);
    snap := CaptureLinks(sets, op, key, mats);
    if saved.Some? {
      snap := ReplaySnapshot(saved.value, snap, run);
    }
  }

  method FingerprintsByKey(snap: Mats, dep: Name, keys: seq<Key>) returns (byKey: map<Key, Value>)
    ensures byKey == map k | k in keys :: FpValue(PrintOf(snap, Cell(dep, Some(k))))
  {
    byKey := map[];
    for i := 0 to |keys|
      invariant byKey == map k | k in keys[..i] :: FpValue(PrintOf(snap, Cell(dep, Some(k))))
    {
      assert keys[..i + 1] == keys[..i] + [keys[i]];
      byKey := byKey[keys[i] := FpValue(PrintOf(snap, Cell(dep, Some(keys[i]))))];
    }
    assert keys[..|keys|] == keys;
  }

  method ValuesByKey(snap: Mats, dep: Name, keys: seq<Key>) returns (byKey: map<Key, Value>)
    ensures byKey == map k | k in keys && Cell(dep, Some(k)) in snap :: snap[Cell(dep, Some(k))].value
  {
    byKey := map[];
    for i := 0 to |keys|
      invariant byKey == map k | k in keys[..i] && Cell(dep, Some(k)) in snap :: snap[Cell(dep, Some(k))].value
    {
      assert keys[..i + 1] == keys[..i] + [keys[i]];
      if Cell(dep, Some(keys[i])) in snap {
        byKey := byKey[keys[i] := snap[Cell(dep, Some(keys[i]))].value];
      }
    }
    assert keys[..|keys|] == keys;
  }

  method FingerprintOf(sets: Sets, op: OpMeta, key: Option<Key>, snap: Mats, dep: Name) returns (recorded: Value)
    ensures recorded == Recorded(sets, op, key, snap, dep)
  {
    if dep !in sets {
      return FpValue(PrintOf(snap, Cell(dep, None)));
    }
    var keys := ReadKeys(sets, op.maps, dep, key);
    if MappingOf(op.maps, dep).ReadsOne() {
      return if keys == [] then Null else FpValue(PrintOf(snap, Cell(dep, Some(keys[0]))));
    }
    var byKey := FingerprintsByKey(snap, dep, keys);
    return Object(byKey);
  }

  method DepFingerprints(sets: Sets, op: OpMeta, key: Option<Key>, snap: Mats) returns (inputs: map<Name, Value>)
    ensures inputs == RecordedInputs(sets, op, key, snap) && NotedDown(sets, op, key, snap, inputs)
  {
    RecordedNotedDown(sets, op, key, snap);
    inputs := map[];
    for t := 0 to |op.deps|
      invariant inputs == map dep | dep in op.deps[..t] :: Recorded(sets, op, key, snap, dep)
    {
      assert op.deps[..t + 1] == op.deps[..t] + [op.deps[t]];
      var recorded := FingerprintOf(sets, op, key, snap, op.deps[t]);
      inputs := inputs[op.deps[t] := recorded];
    }
    assert op.deps[..|op.deps|] == op.deps;
  }

  method InputOf(sets: Sets, op: OpMeta, key: Option<Key>, snap: Mats, dep: Name) returns (value: Option<Value>)
    ensures value == Input(sets, op, key, snap, dep)
  {
    if dep !in sets {
      return Some(if Cell(dep, None) in snap then snap[Cell(dep, None)].value else Null);
    }
    var keys := ReadKeys(sets, op.maps, dep, key);
    if MappingOf(op.maps, dep).ReadsOne() {
      var at := if keys != [] then Some(Cell(dep, Some(keys[0]))) else None;
      return if at.Some? && at.value in snap then Some(snap[at.value].value) else None;
    }
    var byKey := ValuesByKey(snap, dep, keys);
    return Some(Object(byKey));
  }

  method WithDepInputs(sets: Sets, op: OpMeta, key: Option<Key>, snap: Mats) returns (inputs: map<Name, Value>)
    ensures inputs == Inputs(sets, op, key, snap) && HandedOver(sets, op, key, snap, inputs)
  {
    InputsHandedOver(sets, op, key, snap);
    inputs := map[];
    for t := 0 to |op.deps|
      invariant forall dep :: dep in inputs <==> dep in op.deps[..t] && Input(sets, op, key, snap, dep).Some?
      invariant forall dep :: dep in inputs ==> inputs[dep] == Input(sets, op, key, snap, dep).value
    {
      assert op.deps[..t + 1] == op.deps[..t] + [op.deps[t]];
      var value := InputOf(sets, op, key, snap, op.deps[t]);
      if value.Some? {
        inputs := inputs[op.deps[t] := value.value];
      }
    }
    assert op.deps[..|op.deps|] == op.deps;
  }

  // ----------------------------------------------------------- one wrapped op

  /** A build whose body has run: the fingerprints it captured and what the body returned. */
  datatype Pending = Pending(inputs: map<Name, Value>, output: Value)

  function OpCells(op: OpMeta, key: Option<Key>): set<Cell> {
    set a | a in op.produces :: Cell(a, key)
  }

  function BuiltRow(op: OpMeta, run: string, p: Pending, fps: Name -> Print, c: Cell): Mat {
    Mat(fps(c.asset), p.inputs, Part(op.produces, p.output, c.asset), Some(run))
  }

  function BuiltRows(op: OpMeta, key: Option<Key>, run: string, p: Pending, fps: Name -> Print): Mats {
    map c | c in OpCells(op, key) :: BuiltRow(op, run, p, fps, c)
  }

  ghost predicate Ran(reg: Registry, sets: Sets, world: World, op: OpMeta, key: Option<Key>, mats: Mats, run: string,
                      saved: Option<Mats>, output: Value, recorded: map<Name, Value>) {
    exists snap, handed, outside ::
      && Gathered(sets, op, key, mats, run, saved, snap) && NotedDown(sets, op, key, snap, recorded)
      && HandedOver(sets, op, key, snap, handed) && SeesOutside(reg, op, snap, outside)
      && output == world.body(op.name, key, handed, outside)
  }

  /** A row for every asset the op makes at its key: its part of the output, what was consumed, and the run. */
  ghost predicate Staged(op: OpMeta, key: Option<Key>, run: string, fps: Name -> Print, output: Value,
                         recorded: map<Name, Value>, rows: Mats) {
    && (forall c :: c in rows <==> c.asset in op.produces && c.key == key)
    && forall c :: c in rows ==>
         && rows[c].fp == fps(c.asset) && rows[c].inputs == recorded && rows[c].run == Some(run)
         && (|op.produces| == 1 ==> rows[c].value == output)
         && (|op.produces| != 1 ==>
               output.Object? && c.asset in output.fields && rows[c].value == output.fields[c.asset])
  }

  /**
   * What came of an op: one row for each asset it makes, of what its body
   * returned, or an error when that does not name them.
   */
  ghost predicate OpRan(reg: Registry, sets: Sets, world: World, op: OpMeta, key: Option<Key>, mats: Mats, run: string,
                        saved: Option<Mats>, fps: Name -> Print, r: Result<Mats, SplitError>) {
    exists output, recorded ::
      && Ran(reg, sets, world, op, key, mats, run, saved, output, recorded)
      && (r.Ok? <==> NamesEach(op.produces, output))
      && (r.Ok? ==> Staged(op, key, run, fps, output, recorded, r.value))
  }

  /**
   * One wrapped op: fingerprints and inputs come from one captured snapshot, and
   * every asset the output splits into is staged with those fingerprints.
   */
  method RunOp(reg: Registry, sets: Sets, world: World, op: OpMeta, key: Option<Key>, mats: Mats, run: string,
               saved: Option<Mats>, fps: Name -> Print)
    returns (r: Result<Mats, SplitError>)
    ensures var snap := Captured(sets, op, key, mats, run, saved);
            && (r.Ok? <==> Splits(op.produces, Output(reg, sets, world, op, key, snap)))
            && (r.Ok? ==> r.value == BuiltRows(op, key, run, Pending(RecordedInputs(sets, op, key, snap),
                                                                     Output(reg, sets, world, op, key, snap)), fps))
    ensures OpRan(reg, sets, world, op, key, mats, run, saved, fps, r)
  {
    var captured := CaptureInputs(sets, op, key, mats, run, saved);
    var inputs := DepFingerprints(sets, op, key, captured);
    var seen := WithDepInputs(sets, op, key, captured);
    var output := world.body(op.name, key, seen, Outside(reg, op, captured));
    var values := SplitOutput(op.produces, output);
    if values.Err? {
      r := Err(values.error);
    } else {
      var staged := StageAll(op, key, run, Pending(inputs, output), fps, values.value);
      r := Ok(staged);
    }
    RunOpSays(reg, sets, world, op, key, mats, run, saved, fps, r);
  }

  lemma RunsThrough(reg: Registry, sets: Sets, world: World, op: OpMeta, key: Option<Key>, mats: Mats, run: string,
                    saved: Option<Mats>, snap: Mats, recorded: map<Name, Value>, handed: map<Name, Value>)
    requires Gathered(sets, op, key, mats, run, saved, snap) && NotedDown(sets, op, key, snap, recorded)
    requires HandedOver(sets, op, key, snap, handed)
    ensures Ran(reg, sets, world, op, key, mats, run, saved, world.body(op.name, key, handed, Outside(reg, op, snap)),
                recorded)
  {
    assert SeesOutside(reg, op, snap, Outside(reg, op, snap));
  }

  lemma OpRanFrom(reg: Registry, sets: Sets, world: World, op: OpMeta, key: Option<Key>, mats: Mats, run: string,
                  saved: Option<Mats>, fps: Name -> Print, output: Value, recorded: map<Name, Value>)
    requires Ran(reg, sets, world, op, key, mats, run, saved, output, recorded)
    ensures forall e :: !Splits(op.produces, output) ==>
              OpRan(reg, sets, world, op, key, mats, run, saved, fps, Err(e))
    ensures Splits(op.produces, output) ==>
              OpRan(reg, sets, world, op, key, mats, run, saved, fps,
                    Ok(BuiltRows(op, key, run, Pending(recorded, output), fps)))
  {
    SplitsIffNamesEach(op.produces, output);
    if Splits(op.produces, output) {
      RowsStaged(op, key, run, fps, output, recorded);
    }
  }

  lemma SplitsIffNamesEach(produces: seq<Name>, output: Value)
    ensures Splits(produces, output) <==> NamesEach(produces, output)
  {
  }

  lemma RowsStaged(op: OpMeta, key: Option<Key>, run: string, fps: Name -> Print, output: Value,
                   recorded: map<Name, Value>)
    requires NamesEach(op.produces, output)
    ensures Staged(op, key, run, fps, output, recorded, BuiltRows(op, key, run, Pending(recorded, output), fps))
  {
    forall c: Cell | c.asset in op.produces && c.key == key ensures c in OpCells(op, key) {
      assert Cell(c.asset, key) == c;
    }
  }

  /** The rows an op gathers, what it records of them and what it is handed are those read off the cells. */
  lemma RunOpSays(reg: Registry, sets: Sets, world: World, op: OpMeta, key: Option<Key>, mats: Mats, run: string,
                  saved: Option<Mats>, fps: Name -> Print, r: Result<Mats, SplitError>)
    requires var snap := Captured(sets, op, key, mats, run, saved);
             && (r.Ok? <==> Splits(op.produces, Output(reg, sets, world, op, key, snap)))
             && (r.Ok? ==> r.value == BuiltRows(op, key, run, Pending(RecordedInputs(sets, op, key, snap),
                                                                      Output(reg, sets, world, op, key, snap)), fps))
    ensures OpRan(reg, sets, world, op, key, mats, run, saved, fps, r)
  {
    var snap := Captured(sets, op, key, mats, run, saved);
    CapturedGathered(sets, op, key, mats, run, saved);
    RecordedNotedDown(sets, op, key, snap);
    InputsHandedOver(sets, op, key, snap);
    RunsThrough(reg, sets, world, op, key, mats, run, saved, snap, RecordedInputs(sets, op, key, snap),
                Inputs(sets, op, key, snap));
    OpRanFrom(reg, sets, world, op, key, mats, run, saved, fps, Output(reg, sets, world, op, key, snap),
              RecordedInputs(sets, op, key, snap));
  }

  method StageAll(op: OpMeta, key: Option<Key>, run: string, p: Pending, fps: Name -> Print, values: seq<(Name, Value)>)
    returns (staged: Mats)
    requires |values| == |op.produces|
    requires forall i :: 0 <= i < |values| ==>
               values[i] == (op.produces[i], Part(op.produces, p.output, op.produces[i]))
    ensures staged == BuiltRows(op, key, run, p, fps)
  {
    staged := map[];
    for i := 0 to |values|
      invariant forall c :: c in staged <==> c.key == key && c.asset in op.produces[..i]
      invariant forall c :: c in staged ==> staged[c] == BuiltRow(op, run, p, fps, c)
    {
      var (asset, value) := values[i];
      assert op.produces[..i + 1] == op.produces[..i] + [asset];
      staged := staged[Cell(asset, key) := Mat(fps(asset), p.inputs, value, Some(run))];
    }
    assert op.produces[..|values|] == op.produces;
  }
}
