/**
 * Memoised equals clean (src/asset.rs): with honest lineage, a cell called fresh
 * holds what a from-scratch evaluation over the current source rows would give,
 * as long as its rows recorded no key dropped since and no dropped key has come
 * back.
 */
module Memo {
  import opened Prelude
  import opened Assets
  import opened Freshness
  import opened Builds

  // ----------------------------------------------------------- the from-scratch build

  ghost function OwnCells(sets: Sets, n: Name): set<Cell> {
    if n in sets then set k | k in sets[n] :: Cell(n, Some(k)) else {Cell(n, None)}
  }

  ghost function CleanRow(reg: Registry, sets: Sets, world: World, upstream: Mats, c: Cell): Mat {
    var op := reg.OpFor(c.asset);
    Mat("", map[], Part(op.produces, Output(reg, sets, world, op, c.key, upstream), c.asset), None)
  }

  ghost function CleanRows(reg: Registry, sets: Sets, world: World, mats: Mats, upstream: Mats, m: AssetMeta): Mats {
    if m.source then map c | c in {Cell(m.name, None)} && c in mats :: mats[c]
    else map c | c in OwnCells(sets, m.name) :: CleanRow(reg, sets, world, upstream, c)
  }

  /** Every cell of the first `n` assets, evaluated from the source rows alone. */
  ghost function Clean(reg: Registry, sets: Sets, world: World, mats: Mats, n: nat): Mats
    requires n <= |reg.metas|
  {
    if n == 0 then map[]
    else
      var upstream := Clean(reg, sets, world, mats, n - 1);
      upstream + CleanRows(reg, sets, world, mats, upstream, reg.metas[n - 1])
  }

  ghost function CleanBuild(reg: Registry, sets: Sets, world: World, mats: Mats): Mats {
    Clean(reg, sets, world, mats, |reg.metas|)
  }

  lemma RowsOfAsset(reg: Registry, sets: Sets, world: World, mats: Mats, upstream: Mats, m: AssetMeta, c: Cell)
    requires c.asset != m.name
    ensures c !in CleanRows(reg, sets, world, mats, upstream, m)
  {
  }

  lemma CleanStep(reg: Registry, sets: Sets, world: World, mats: Mats, m: nat, c: Cell)
    requires m < |reg.metas| && reg.metas[m].name != c.asset
    ensures c in Clean(reg, sets, world, mats, m) <==> c in Clean(reg, sets, world, mats, m + 1)
    ensures c in Clean(reg, sets, world, mats, m) ==>
              Clean(reg, sets, world, mats, m)[c] == Clean(reg, sets, world, mats, m + 1)[c]
  {
    RowsOfAsset(reg, sets, world, mats, Clean(reg, sets, world, mats, m), reg.metas[m], c);
  }

  lemma {:induction false} CleanSettles(reg: Registry, sets: Sets, world: World, mats: Mats, n: nat, m: nat, c: Cell)
    requires n <= m <= |reg.metas| && forall i :: n <= i < m ==> reg.metas[i].name != c.asset
    ensures c in Clean(reg, sets, world, mats, n) <==> c in Clean(reg, sets, world, mats, m)
    ensures c in Clean(reg, sets, world, mats, n) ==>
              Clean(reg, sets, world, mats, n)[c] == Clean(reg, sets, world, mats, m)[c]
  {
    if n < m {
      CleanSettles(reg, sets, world, mats, n, m - 1, c);
      CleanStep(reg, sets, world, mats, m - 1, c);
    }
  }

  lemma SourceIsClean(reg: Registry, sets: Sets, world: World, mats: Mats, c: Cell)
    requires reg.NamesIndexed() && reg.IsSource(c.asset) && c in mats && c.key.None?
    ensures c in CleanBuild(reg, sets, world, mats) && CleanBuild(reg, sets, world, mats)[c] == mats[c]
  {
    var i := reg.byName[c.asset];
    var upstream := Clean(reg, sets, world, mats, i);
    assert c in CleanRows(reg, sets, world, mats, upstream, reg.metas[i]);
    assert Clean(reg, sets, world, mats, i + 1)[c] == mats[c];
    CleanSettles(reg, sets, world, mats, i + 1, |reg.metas|, c);
  }

  /** Outputs depend on no more than the rows of the op's deps. */
  lemma OutputDependsOnDeps(reg: Registry, sets: Sets, world: World, op: OpMeta, key: Option<Key>, a: Mats, b: Mats)
    requires forall d: Cell :: d.asset in op.deps ==> (d in a <==> d in b) && (d in a ==> a[d] == b[d])
    ensures Output(reg, sets, world, op, key, a) == Output(reg, sets, world, op, key, b)
  {
    forall dep | dep in op.deps ensures Input(sets, op, key, a, dep) == Input(sets, op, key, b, dep) {
      InputDependsOnDep(sets, op, key, a, b, dep);
    }
    assert Inputs(sets, op, key, a) == Inputs(sets, op, key, b);
    assert Outside(reg, op, a) == Outside(reg, op, b);
  }

  lemma InputDependsOnDep(sets: Sets, op: OpMeta, key: Option<Key>, a: Mats, b: Mats, dep: Name)
    requires forall d: Cell :: d.asset == dep ==> (d in a <==> d in b) && (d in a ==> a[d] == b[d])
    ensures Input(sets, op, key, a, dep) == Input(sets, op, key, b, dep)
  {
    if dep in sets && !MappingOf(op.maps, dep).ReadsOne() {
      var keys := ReadKeys(sets, op.maps, dep, key);
      assert (map k | k in keys && Cell(dep, Some(k)) in a :: a[Cell(dep, Some(k))].value)
          == (map k | k in keys && Cell(dep, Some(k)) in b :: b[Cell(dep, Some(k))].value);
    }
  }

  // The deps of an asset's op are registered before the asset.
  ghost predicate OpDepsBefore(reg: Registry, a: Name) {
    && a in reg.byName
    && forall d :: d in reg.OpFor(a).deps ==> d in reg.byName && reg.byName[d] < reg.byName[a]
  }

  lemma RowPlaced(reg: Registry, sets: Sets, world: World, mats: Mats, i: nat, c: Cell)
    requires i < |reg.metas| && reg.metas[i].name == c.asset && !reg.metas[i].source && c in OwnCells(sets, c.asset)
    ensures c in Clean(reg, sets, world, mats, i + 1)
    ensures Clean(reg, sets, world, mats, i + 1)[c] == CleanRow(reg, sets, world, Clean(reg, sets, world, mats, i), c)
  {
    assert c in CleanRows(reg, sets, world, mats, Clean(reg, sets, world, mats, i), reg.metas[i]);
  }

  lemma CleanRowDependsOnDeps(reg: Registry, sets: Sets, world: World, mats: Mats, i: nat, c: Cell)
    requires i <= |reg.metas|
    requires forall d, j :: d in reg.OpFor(c.asset).deps && i <= j < |reg.metas| ==> reg.metas[j].name != d
    ensures CleanRow(reg, sets, world, Clean(reg, sets, world, mats, i), c)
         == CleanRow(reg, sets, world, CleanBuild(reg, sets, world, mats), c)
  {
    var upstream, all := Clean(reg, sets, world, mats, i), CleanBuild(reg, sets, world, mats);
    var op := reg.OpFor(c.asset);
    forall d: Cell | d.asset in op.deps
      ensures (d in upstream <==> d in all) && (d in upstream ==> upstream[d] == all[d])
    {
      CleanSettles(reg, sets, world, mats, i, |reg.metas|, d);
    }
    OutputDependsOnDeps(reg, sets, world, op, c.key, upstream, all);
  }

  lemma RowSettled(reg: Registry, sets: Sets, world: World, mats: Mats, i: nat, c: Cell)
    requires i < |reg.metas| && reg.metas[i].name == c.asset && !reg.metas[i].source && c in OwnCells(sets, c.asset)
    requires forall j :: i < j < |reg.metas| ==> reg.metas[j].name != c.asset
    ensures c in CleanBuild(reg, sets, world, mats)
    ensures CleanBuild(reg, sets, world, mats)[c] == CleanRow(reg, sets, world, Clean(reg, sets, world, mats, i), c)
  {
    RowPlaced(reg, sets, world, mats, i, c);
    CleanSettles(reg, sets, world, mats, i + 1, |reg.metas|, c);
  }

  lemma RankedBelow(reg: Registry, d: Name, i: nat)
    requires reg.NamesIndexed() && d in reg.byName && reg.byName[d] < i
    ensures forall j :: i <= j < |reg.metas| ==> reg.metas[j].name != d
  {
  }

  /** The clean build is a fixed point: each derived cell is its op's output over the rest of it. */
  lemma CleanEquation(reg: Registry, sets: Sets, world: World, mats: Mats, c: Cell)
    requires reg.NamesIndexed() && OpDepsBefore(reg, c.asset) && !reg.IsSource(c.asset) && c in OwnCells(sets, c.asset)
    ensures c in CleanBuild(reg, sets, world, mats)
    ensures CleanBuild(reg, sets, world, mats)[c] == CleanRow(reg, sets, world, CleanBuild(reg, sets, world, mats), c)
  {
    var i := reg.byName[c.asset];
    RankedBelow(reg, c.asset, i + 1);
    forall d | d in reg.OpFor(c.asset).deps ensures forall j :: i <= j < |reg.metas| ==> reg.metas[j].name != d {
      RankedBelow(reg, d, i);
    }
    RowSettled(reg, sets, world, mats, i, c);
    CleanRowDependsOnDeps(reg, sets, world, mats, i, c);
  }

  /** Spelled out: its body run on what is handed over of the clean build, and its part of what that returns. */
  lemma CleanSays(reg: Registry, sets: Sets, world: World, mats: Mats, c: Cell)
    requires reg.NamesIndexed() && OpDepsBefore(reg, c.asset) && !reg.IsSource(c.asset) && c in OwnCells(sets, c.asset)
    ensures var clean, op := CleanBuild(reg, sets, world, mats), reg.OpFor(c.asset);
            && c in clean
            && exists handed, outside ::
                 HandedOver(sets, op, c.key, clean, handed) && SeesOutside(reg, op, clean, outside)
                 && var output := world.body(op.name, c.key, handed, outside);
                    && (|op.produces| == 1 ==> clean[c].value == output)
                    && (|op.produces| != 1 && output.Object? && c.asset in output.fields ==>
                          clean[c].value == output.fields[c.asset])
  {
    var clean, op := CleanBuild(reg, sets, world, mats), reg.OpFor(c.asset);
    CleanEquation(reg, sets, world, mats, c);
    InputsHandedOver(sets, op, c.key, clean);
    assert SeesOutside(reg, op, clean, Outside(reg, op, clean));
  }

  // ----------------------------------------------------------- honest lineage

  type History = set<(Cell, Mat)>

  /** The hypothesis on fingerprints: two rows of one cell with one fingerprint hold one value. */
  ghost predicate Faithful(history: History) {
    forall c, a, b :: (c, a) in history && (c, b) in history && a.fp == b.fp ==> a.value == b.value
  }

  ghost predicate Grown(before: Sets, after: Sets) {
    before.Keys == after.Keys && forall n, k :: n in before && k in before[n] ==> k in after[n]
  }

  /**
   * Honest lineage: one set of recorded rows gives both the fingerprints a row
   * says it consumed, at the keys its deps had as they were noted, and the value
   * its body made of them, at the keys they had as it was handed them.
   */
  ghost predicate ExplainedBy(reg: Registry, world: World, history: History, noted: Sets, handed: Sets, snap: Mats,
                              c: Cell, row: Mat) {
    var op := reg.OpFor(c.asset);
    && AllRecorded(history, snap)
    && row.inputs == RecordedInputs(noted, op, c.key, snap)
    && row.value == Part(op.produces, Output(reg, handed, world, op, c.key, snap), c.asset)
  }

  ghost predicate AllRecorded(history: History, rows: Mats) {
    forall d :: d in rows ==> (d, rows[d]) in history
  }

  /** Keys that have left the key set they were in. */
  type Drops = set<(Name, Key)>

  /** Dropped keys stay dropped. */
  ghost predicate NoneBack(sets: Sets, dropped: Drops) {
    forall n, k :: (n, k) in dropped && n in sets ==> k !in sets[n]
  }

  // A key noted and not handed was dropped in between; one captured and gone by the noting was not handed either.
  ghost predicate KeyInOrder(dropped: Drops, noted: Sets, handed: Sets, snap: Mats, dep: Name, k: Key)
    requires dep in noted && dep in handed
  {
    && (k in noted[dep] && k !in handed[dep] ==> (dep, k) in dropped)
    && (Cell(dep, Some(k)) in snap && k !in noted[dep] ==> k !in handed[dep])
  }

  ghost predicate InOrder(dropped: Drops, noted: Sets, handed: Sets, op: OpMeta, snap: Mats) {
    forall dep, k :: dep in op.deps && Mapped(noted, op.maps, dep) && dep in handed ==>
      KeyInOrder(dropped, noted, handed, snap, dep, k)
  }

  /** Explained, and where dropped keys stay dropped, in the order key sets were read. */
  ghost predicate Explained(reg: Registry, world: World, history: History, sets: Sets, order: Option<Drops>, c: Cell,
                            row: Mat) {
    exists noted: Sets, handed: Sets, snap: Mats ::
      && noted.Keys == handed.Keys == sets.Keys
      && ExplainedBy(reg, world, history, noted, handed, snap, c, row)
      && (order.Some? ==> InOrder(order.value, noted, handed, reg.OpFor(c.asset), snap))
  }

  // ----------------------------------------------------------- one edge of a fresh cell

  /** Rows of one cell with one fingerprint hold one value, between a snapshot and the store. */
  ghost predicate SameFpSameValue(snap: Mats, mats: Mats) {
    forall d :: d in snap && d in mats && snap[d].fp == mats[d].fp ==> snap[d].value == mats[d].value
  }

  /** What an edge of a fresh cell says, and what a clean build has at the keys it reads. */
  ghost predicate EdgeAgrees(sets: Sets, op: OpMeta, key: Option<Key>, row: Mat, mats: Mats, clean: Mats, dep: Name) {
    forall at :: at in Consulted(sets, op.maps, dep, key) ==>
      KeyAgrees(Had(sets, op.maps, row, dep, at), mats, clean, Cell(dep, at))
  }

  ghost predicate KeyAgrees(had: Option<Print>, mats: Mats, clean: Mats, d: Cell) {
    d in mats && had == PrintOf(mats, d) && d in clean && clean[d].value == mats[d].value
  }

  lemma WholeInputAgrees(sets0: Sets, sets: Sets, op: OpMeta, key: Option<Key>, row: Mat, snap: Mats, mats: Mats,
                         clean: Mats, dep: Name)
    requires sets0.Keys == sets.Keys && dep !in sets && dep in op.deps
    requires row.inputs == RecordedInputs(sets0, op, key, snap) && SameFpSameValue(snap, mats)
    requires EdgeAgrees(sets, op, key, row, mats, clean, dep)
    ensures Input(sets0, op, key, snap, dep) == Input(sets, op, key, clean, dep)
    ensures Cell(dep, None) in snap && Cell(dep, None) in mats && snap[Cell(dep, None)].fp == mats[Cell(dep, None)].fp
  {
    var at: Option<Key> := None;
    assert at in Consulted(sets, op.maps, dep, key);
    assert KeyAgrees(Had(sets, op.maps, row, dep, at), mats, clean, Cell(dep, at));
    assert row.inputs[dep] == FpValue(PrintOf(snap, Cell(dep, None)));
  }

  lemma IdentityInputAgrees(sets0: Sets, sets: Sets, op: OpMeta, key: Option<Key>, row: Mat, snap: Mats, mats: Mats,
                            clean: Mats, dep: Name)
    requires sets0.Keys == sets.Keys && dep in sets && dep in op.deps && MappingOf(op.maps, dep).Identity?
    requires row.inputs == RecordedInputs(sets0, op, key, snap) && SameFpSameValue(snap, mats)
    requires EdgeAgrees(sets, op, key, row, mats, clean, dep)
    ensures Input(sets0, op, key, snap, dep) == Input(sets, op, key, clean, dep)
  {
    assert key in Consulted(sets, op.maps, dep, key);
    assert KeyAgrees(Had(sets, op.maps, row, dep, key), mats, clean, Cell(dep, key));
    assert row.inputs[dep] == Recorded(sets0, op, key, snap, dep);
  }

  /** A key read through an offset is recorded bare, so asking for it by key finds nothing. */
  lemma OffsetHadNothing(sets0: Sets, sets: Sets, op: OpMeta, key: Option<Key>, row: Mat, snap: Mats, dep: Name,
                         at: Option<Key>)
    requires sets0.Keys == sets.Keys && dep in sets && dep in op.deps && MappingOf(op.maps, dep).Offset?
    requires row.inputs == RecordedInputs(sets0, op, key, snap) && at.Some?
    ensures Had(sets, op.maps, row, dep, at) == None
  {
    assert row.inputs[dep] == Recorded(sets0, op, key, snap, dep);
  }

  lemma InConsulted(sets: Sets, maps: map<Name, Mapping>, dep: Name, key: Option<Key>, k: Key)
    requires dep in sets && k in ReadKeys(sets, maps, dep, key) && !MappingOf(maps, dep).Identity?
    ensures Some(k) in Consulted(sets, maps, dep, key)
  {
    var r := Resolve(MappingOf(maps, dep), key, sets[dep]);
    var all := r.keys + r.missing;
    var i :| 0 <= i < |r.keys| && r.keys[i] == k;
    assert all[i] == k && Somes(all)[i] == Some(k);
  }

  /**
   * What a row says it read through a mapping is still read: no key it recorded
   * a fingerprint of has left the keys its op reads now.
   */
  ghost predicate StillReads(sets: Sets, maps: map<Name, Mapping>, key: Option<Key>, row: Mat, dep: Name) {
    if !Mapped(sets, maps, dep) then true
    else if MappingOf(maps, dep).Offset? then AsText(Lookup(row.inputs, dep)).None?
    else forall k :: AsText(Field(Lookup(row.inputs, dep), k)).Some? ==> k in ReadKeys(sets, maps, dep, key)
  }

  lemma OffsetInputIff(sets0: Sets, sets: Sets, op: OpMeta, key: Option<Key>, row: Mat, snap: Mats, mats: Mats,
                       clean: Mats, dep: Name)
    requires sets0.Keys == sets.Keys && dep in sets && dep in op.deps && MappingOf(op.maps, dep).Offset?
    requires row.inputs == RecordedInputs(sets0, op, key, snap)
    requires EdgeAgrees(sets, op, key, row, mats, clean, dep)
    ensures Input(sets0, op, key, snap, dep) == Input(sets, op, key, clean, dep) <==>
              StillReads(sets, op.maps, key, row, dep)
  {
    var keys := ReadKeys(sets, op.maps, dep, key);
    if keys != [] {
      OffsetAgreesNowhere(sets0, sets, op, key, row, snap, mats, clean, dep);
    }
    assert row.inputs[dep] == Recorded(sets0, op, key, snap, dep);
  }

  lemma OffsetAgreesNowhere(sets0: Sets, sets: Sets, op: OpMeta, key: Option<Key>, row: Mat, snap: Mats, mats: Mats,
                            clean: Mats, dep: Name)
    requires sets0.Keys == sets.Keys && dep in sets && dep in op.deps && MappingOf(op.maps, dep).Offset?
    requires row.inputs == RecordedInputs(sets0, op, key, snap) && ReadKeys(sets, op.maps, dep, key) != []
    ensures !EdgeAgrees(sets, op, key, row, mats, clean, dep)
  {
    var keys := ReadKeys(sets, op.maps, dep, key);
    assert keys[0] in keys;
    InConsulted(sets, op.maps, dep, key, keys[0]);
    OffsetHadNothing(sets0, sets, op, key, row, snap, dep, Some(keys[0]));
    assert !KeyAgrees(Had(sets, op.maps, row, dep, Some(keys[0])), mats, clean, Cell(dep, Some(keys[0])));
  }

  lemma OneOfMany(sets0: Sets, sets: Sets, op: OpMeta, key: Option<Key>, row: Mat, snap: Mats, mats: Mats, clean: Mats,
                  dep: Name, k: Key)
    requires sets0.Keys == sets.Keys && dep in sets && dep in op.deps && !MappingOf(op.maps, dep).ReadsOne()
    requires row.inputs == RecordedInputs(sets0, op, key, snap) && SameFpSameValue(snap, mats)
    requires EdgeAgrees(sets, op, key, row, mats, clean, dep) && k in ReadKeys(sets, op.maps, dep, key)
    ensures k in ReadKeys(sets0, op.maps, dep, key) && Cell(dep, Some(k)) in snap && Cell(dep, Some(k)) in clean
    ensures snap[Cell(dep, Some(k))].value == clean[Cell(dep, Some(k))].value
  {
    InConsulted(sets, op.maps, dep, key, k);
    assert KeyAgrees(Had(sets, op.maps, row, dep, Some(k)), mats, clean, Cell(dep, Some(k)));
    assert row.inputs[dep] == Recorded(sets0, op, key, snap, dep);
  }

  function ByKey(mats: Mats, dep: Name, keys: seq<Key>): map<Key, Value> {
    map k | k in keys && Cell(dep, Some(k)) in mats :: mats[Cell(dep, Some(k))].value
  }

  // Two reads of many keys agree exactly when the first found nothing the second does not read.
  lemma SameByKeyIff(snap: Mats, clean: Mats, dep: Name, was: seq<Key>, now: seq<Key>)
    requires forall k :: k in now ==> k in was && Cell(dep, Some(k)) in snap && Cell(dep, Some(k)) in clean
                                      && snap[Cell(dep, Some(k))].value == clean[Cell(dep, Some(k))].value
    ensures ByKey(snap, dep, was) == ByKey(clean, dep, now) <==> forall k :: k in was && Cell(dep, Some(k)) in snap ==>
              k in now
  {
    if ByKey(snap, dep, was) == ByKey(clean, dep, now) {
      forall k | k in was && Cell(dep, Some(k)) in snap ensures k in now {
        assert k in ByKey(snap, dep, was);
      }
    }
  }

  lemma ManyRecorded(sets0: Sets, sets: Sets, op: OpMeta, key: Option<Key>, row: Mat, snap: Mats, dep: Name, k: Key)
    requires sets0.Keys == sets.Keys && dep in sets && dep in op.deps && !MappingOf(op.maps, dep).ReadsOne()
    requires row.inputs == RecordedInputs(sets0, op, key, snap)
    ensures AsText(Field(Lookup(row.inputs, dep), k)).Some? <==>
              k in ReadKeys(sets0, op.maps, dep, key) && Cell(dep, Some(k)) in snap
  {
    assert row.inputs[dep] == Recorded(sets0, op, key, snap, dep);
  }

  lemma ManyInputIff(sets0: Sets, sets: Sets, op: OpMeta, key: Option<Key>, row: Mat, snap: Mats, mats: Mats,
                     clean: Mats, dep: Name)
    requires sets0.Keys == sets.Keys && dep in sets && dep in op.deps && !MappingOf(op.maps, dep).ReadsOne()
    requires row.inputs == RecordedInputs(sets0, op, key, snap) && SameFpSameValue(snap, mats)
    requires EdgeAgrees(sets, op, key, row, mats, clean, dep)
    ensures Input(sets0, op, key, snap, dep) == Input(sets, op, key, clean, dep) <==>
              StillReads(sets, op.maps, key, row, dep)
  {
    var was, now := ReadKeys(sets0, op.maps, dep, key), ReadKeys(sets, op.maps, dep, key);
    forall k | k in now
      ensures k in was && Cell(dep, Some(k)) in snap && Cell(dep, Some(k)) in clean
              && snap[Cell(dep, Some(k))].value == clean[Cell(dep, Some(k))].value
    {
      OneOfMany(sets0, sets, op, key, row, snap, mats, clean, dep, k);
    }
    forall k ensures AsText(Field(Lookup(row.inputs, dep), k)).Some? <==> k in was && Cell(dep, Some(k)) in snap {
      ManyRecorded(sets0, sets, op, key, row, snap, dep, k);
    }
    SameByKeyIff(snap, clean, dep, was, now);
    assert Input(sets0, op, key, snap, dep) == Some(Object(ByKey(snap, dep, was)));
    assert Input(sets, op, key, clean, dep) == Some(Object(ByKey(clean, dep, now)));
  }

  /** One input agrees with the clean build exactly when what the row recorded of the dep is still read. */
  lemma InputIff(sets0: Sets, sets: Sets, op: OpMeta, key: Option<Key>, row: Mat, snap: Mats, mats: Mats, clean: Mats,
                 dep: Name)
    requires sets0.Keys == sets.Keys && dep in op.deps
    requires row.inputs == RecordedInputs(sets0, op, key, snap) && SameFpSameValue(snap, mats)
    requires EdgeAgrees(sets, op, key, row, mats, clean, dep)
    ensures Input(sets0, op, key, snap, dep) == Input(sets, op, key, clean, dep) <==>
              StillReads(sets, op.maps, key, row, dep)
  {
    if dep !in sets {
      WholeInputAgrees(sets0, sets, op, key, row, snap, mats, clean, dep);
    } else if MappingOf(op.maps, dep).Identity? {
      IdentityInputAgrees(sets0, sets, op, key, row, snap, mats, clean, dep);
    } else if MappingOf(op.maps, dep).Offset? {
      OffsetInputIff(sets0, sets, op, key, row, snap, mats, clean, dep);
    } else {
      ManyInputIff(sets0, sets, op, key, row, snap, mats, clean, dep);
    }
  }

  // Nothing a row recorded of any dep has stopped being read.
  ghost predicate StillReadsAll(sets: Sets, op: OpMeta, key: Option<Key>, row: Mat) {
    forall dep :: dep in op.deps ==> StillReads(sets, op.maps, key, row, dep)
  }

  lemma SameInputsIff(sets0: Sets, sets: Sets, op: OpMeta, key: Option<Key>, a: Mats, b: Mats)
    ensures Inputs(sets0, op, key, a) == Inputs(sets, op, key, b) <==>
            forall dep :: dep in op.deps ==> Input(sets0, op, key, a, dep) == Input(sets, op, key, b, dep)
  {
    var x, y := Inputs(sets0, op, key, a), Inputs(sets, op, key, b);
    if x == y {
      forall dep | dep in op.deps ensures Input(sets0, op, key, a, dep) == Input(sets, op, key, b, dep) {
        assert dep in x <==> dep in y;
      }
    }
  }

  /**
   * With every edge agreeing, the inputs a body was given are the clean build's
   * exactly when nothing it recorded has stopped being read.
   */
  lemma InputsIff(sets0: Sets, sets: Sets, op: OpMeta, key: Option<Key>, row: Mat, snap: Mats, mats: Mats, clean: Mats)
    requires sets0.Keys == sets.Keys
    requires row.inputs == RecordedInputs(sets0, op, key, snap) && SameFpSameValue(snap, mats)
    requires forall dep :: dep in op.deps ==> EdgeAgrees(sets, op, key, row, mats, clean, dep)
    ensures Inputs(sets0, op, key, snap) == Inputs(sets, op, key, clean) <==> StillReadsAll(sets, op, key, row)
  {
    forall dep | dep in op.deps
      ensures Input(sets0, op, key, snap, dep) == Input(sets, op, key, clean, dep) <==>
                StillReads(sets, op.maps, key, row, dep)
    {
      InputIff(sets0, sets, op, key, row, snap, mats, clean, dep);
    }
    SameInputsIff(sets0, sets, op, key, snap, clean);
  }

  // ----------------------------------------------------------- handed over at other keys

  /** No captured key enters or leaves what is read between one reading of the key sets and the next. */
  ghost predicate SameHanded(was: Sets, now: Sets, op: OpMeta, key: Option<Key>, snap: Mats) {
    && was.Keys == now.Keys
    && forall dep, k :: dep in op.deps && Mapped(was, op.maps, dep) && Cell(dep, Some(k)) in snap ==>
         (k in ReadKeys(was, op.maps, dep, key) <==> k in ReadKeys(now, op.maps, dep, key))
  }

  /** What is handed agrees with what was recorded exactly when no captured key came or went in between. */
  lemma HandedSameIff(was: Sets, now: Sets, op: OpMeta, key: Option<Key>, snap: Mats)
    requires was.Keys == now.Keys
    ensures Inputs(was, op, key, snap) == Inputs(now, op, key, snap) <==> SameHanded(was, now, op, key, snap)
  {
    forall dep | dep in op.deps
      ensures Input(was, op, key, snap, dep) == Input(now, op, key, snap, dep) <==>
                DepSameHanded(was, now, op, key, snap, dep)
    {
      DepHandedIff(was, now, op, key, snap, dep);
    }
    SameInputsIff(was, now, op, key, snap, snap);
  }

  ghost predicate DepSameHanded(was: Sets, now: Sets, op: OpMeta, key: Option<Key>, snap: Mats, dep: Name)
    requires was.Keys == now.Keys
  {
    Mapped(was, op.maps, dep) ==> forall k :: Cell(dep, Some(k)) in snap ==>
      (k in ReadKeys(was, op.maps, dep, key) <==> k in ReadKeys(now, op.maps, dep, key))
  }

  lemma DepHandedIff(was: Sets, now: Sets, op: OpMeta, key: Option<Key>, snap: Mats, dep: Name)
    requires was.Keys == now.Keys
    ensures Input(was, op, key, snap, dep) == Input(now, op, key, snap, dep) <==>
              DepSameHanded(was, now, op, key, snap, dep)
  {
    if Mapped(was, op.maps, dep) && !MappingOf(op.maps, dep).Offset? {
      var a, b := ReadKeys(was, op.maps, dep, key), ReadKeys(now, op.maps, dep, key);
      assert Input(was, op, key, snap, dep) == Some(Object(ByKey(snap, dep, a)));
      assert Input(now, op, key, snap, dep) == Some(Object(ByKey(snap, dep, b)));
      if ByKey(snap, dep, a) == ByKey(snap, dep, b) {
        forall k | Cell(dep, Some(k)) in snap ensures k in a <==> k in b {
          assert k in ByKey(snap, dep, a) <==> k in ByKey(snap, dep, b);
        }
      }
    }
  }

  /** Key sets that only grow from capture to record to inputs hand a build exactly what it recorded. */
  lemma GrowthHandsSame(listed: Sets, was: Sets, now: Sets, op: OpMeta, key: Option<Key>, snap: Mats)
    requires Grown(listed, was) && Grown(was, now) && forall d :: d in snap ==> Captures(listed, op, key, d)
    ensures SameHanded(was, now, op, key, snap)
  {
    forall dep, k | dep in op.deps && Mapped(was, op.maps, dep) && Cell(dep, Some(k)) in snap
      ensures k in ReadKeys(was, op.maps, dep, key) && k in ReadKeys(now, op.maps, dep, key)
    {
      assert Captures(listed, op, key, Cell(dep, Some(k)));
      KeysGrow(listed, was, op.maps, dep, key, k);
      KeysGrow(was, now, op.maps, dep, key, k);
    }
  }

  lemma KeysGrow(before: Sets, after: Sets, maps: map<Name, Mapping>, dep: Name, key: Option<Key>, k: Key)
    requires Grown(before, after) && dep in before && k in ReadKeys(before, maps, dep, key)
    ensures k in ReadKeys(after, maps, dep, key)
  {
    if Mapped(before, maps, dep) {
      ReadHeld(before, maps, dep, key, k);
      ReadWhereHeld(before, after, maps, dep, key, k);
    }
  }

  /** With every edge agreeing, the captured rows give what a clean build gives at the keys read now. */
  lemma NowAgrees(noted: Sets, sets: Sets, op: OpMeta, key: Option<Key>, row: Mat, snap: Mats, mats: Mats, clean: Mats)
    requires noted.Keys == sets.Keys
    requires row.inputs == RecordedInputs(noted, op, key, snap) && SameFpSameValue(snap, mats)
    requires forall dep :: dep in op.deps ==> EdgeAgrees(sets, op, key, row, mats, clean, dep)
    ensures Inputs(sets, op, key, snap) == Inputs(sets, op, key, clean)
  {
    forall dep | dep in op.deps ensures Input(sets, op, key, snap, dep) == Input(sets, op, key, clean, dep) {
      DepNowAgrees(noted, sets, op, key, row, snap, mats, clean, dep);
    }
    SameInputsIff(sets, sets, op, key, snap, clean);
  }

  lemma DepNowAgrees(noted: Sets, sets: Sets, op: OpMeta, key: Option<Key>, row: Mat, snap: Mats, mats: Mats,
                     clean: Mats, dep: Name)
    requires noted.Keys == sets.Keys && dep in op.deps
    requires row.inputs == RecordedInputs(noted, op, key, snap) && SameFpSameValue(snap, mats)
    requires EdgeAgrees(sets, op, key, row, mats, clean, dep)
    ensures Input(sets, op, key, snap, dep) == Input(sets, op, key, clean, dep)
  {
    if dep !in sets {
      WholeInputAgrees(noted, sets, op, key, row, snap, mats, clean, dep);
    } else if MappingOf(op.maps, dep).Identity? {
      IdentityInputAgrees(noted, sets, op, key, row, snap, mats, clean, dep);
    } else if MappingOf(op.maps, dep).Offset? {
      if ReadKeys(sets, op.maps, dep, key) != [] {
        OffsetAgreesNowhere(noted, sets, op, key, row, snap, mats, clean, dep);
      }
    } else {
      var now := ReadKeys(sets, op.maps, dep, key);
      forall k | k in now
        ensures Cell(dep, Some(k)) in snap && Cell(dep, Some(k)) in clean
                && snap[Cell(dep, Some(k))].value == clean[Cell(dep, Some(k))].value
      {
        OneOfMany(noted, sets, op, key, row, snap, mats, clean, dep, k);
      }
      SameByKeyIff(snap, clean, dep, now, now);
      assert Input(sets, op, key, snap, dep) == Some(Object(ByKey(snap, dep, now)));
      assert Input(sets, op, key, clean, dep) == Some(Object(ByKey(clean, dep, now)));
    }
  }

  lemma ReadHeld(sets: Sets, maps: map<Name, Mapping>, dep: Name, key: Option<Key>, k: Key)
    requires Mapped(sets, maps, dep) && k in ReadKeys(sets, maps, dep, key)
    ensures k in sets[dep]
  {
    MappedWithin(MappingOf(maps, dep), key, sets[dep]);
  }

  // A mapping reads the held keys among fixed ones.
  lemma ReadWhereHeld(was: Sets, now: Sets, maps: map<Name, Mapping>, dep: Name, key: Option<Key>, k: Key)
    requires Mapped(was, maps, dep) && dep in now && k in ReadKeys(was, maps, dep, key) && k in now[dep]
    ensures k in ReadKeys(now, maps, dep, key)
  {
    var m := MappingOf(maps, dep);
    if m.Covering? && key.Some? {
      HeldWithin(m.window(key.value), was[dep]);
      HeldWithin(m.window(key.value), now[dep]);
    }
  }

  lemma RecordedIsRead(noted: Sets, sets: Sets, op: OpMeta, key: Option<Key>, row: Mat, snap: Mats, dep: Name, k: Key)
    requires noted.Keys == sets.Keys && dep in op.deps && Mapped(noted, op.maps, dep)
    requires row.inputs == RecordedInputs(noted, op, key, snap) && StillReads(sets, op.maps, key, row, dep)
    requires k in ReadKeys(noted, op.maps, dep, key) && Cell(dep, Some(k)) in snap
    ensures k in ReadKeys(sets, op.maps, dep, key)
  {
    assert row.inputs[dep] == Recorded(noted, op, key, snap, dep);
    if !MappingOf(op.maps, dep).Offset? {
      ManyRecorded(noted, sets, op, key, row, snap, dep, k);
    }
  }

  /**
   * Where dropped keys stay dropped, a row that recorded none of them was handed
   * exactly what it recorded, whenever its key sets were read.
   */
  lemma OrderedIsSame(dropped: Drops, noted: Sets, handed: Sets, sets: Sets, op: OpMeta, key: Option<Key>, row: Mat,
                      snap: Mats)
    requires noted.Keys == handed.Keys == sets.Keys && InOrder(dropped, noted, handed, op, snap)
    requires NoneBack(sets, dropped)
    requires row.inputs == RecordedInputs(noted, op, key, snap) && StillReadsAll(sets, op, key, row)
    ensures SameHanded(noted, handed, op, key, snap)
  {
    forall dep, k | dep in op.deps && Mapped(noted, op.maps, dep) && Cell(dep, Some(k)) in snap
      ensures k in ReadKeys(noted, op.maps, dep, key) <==> k in ReadKeys(handed, op.maps, dep, key)
    {
      assert KeyInOrder(dropped, noted, handed, snap, dep, k);
      if k in ReadKeys(noted, op.maps, dep, key) {
        RecordedIsRead(noted, sets, op, key, row, snap, dep, k);
        ReadHeld(noted, op.maps, dep, key, k);
        ReadHeld(sets, op.maps, dep, key, k);
        ReadWhereHeld(noted, handed, op.maps, dep, key, k);
      }
      if k in ReadKeys(handed, op.maps, dep, key) {
        ReadHeld(handed, op.maps, dep, key, k);
        ReadWhereHeld(handed, noted, op.maps, dep, key, k);
      }
    }
  }

  lemma OutsideAgrees(reg: Registry, op: OpMeta, a: Mats, b: Mats)
    requires forall dep :: dep in op.deps && reg.IsSource(dep) ==>
               Cell(dep, None) in a && Cell(dep, None) in b && a[Cell(dep, None)].fp == b[Cell(dep, None)].fp
    ensures Outside(reg, op, a) == Outside(reg, op, b)
  {
  }

  /**
   * With every edge agreeing and nothing dropped, a body over what it was handed
   * and over the clean build returns the same.
   */
  lemma OutputAgrees(reg: Registry, world: World, noted: Sets, handed: Sets, sets: Sets, op: OpMeta, key: Option<Key>,
                     row: Mat, snap: Mats, mats: Mats, clean: Mats)
    requires noted.Keys == sets.Keys && StillReadsAll(sets, op, key, row) && SameHanded(noted, handed, op, key, snap)
    requires row.inputs == RecordedInputs(noted, op, key, snap) && SameFpSameValue(snap, mats)
    requires forall dep :: dep in op.deps ==> EdgeAgrees(sets, op, key, row, mats, clean, dep)
    requires forall dep :: dep in op.deps && reg.IsSource(dep) ==> dep !in sets
    requires forall dep :: dep in op.deps && reg.IsSource(dep) && Cell(dep, None) in mats ==>
               Cell(dep, None) in clean && clean[Cell(dep, None)] == mats[Cell(dep, None)]
    ensures Output(reg, handed, world, op, key, snap) == Output(reg, sets, world, op, key, clean)
  {
    InputsIff(noted, sets, op, key, row, snap, mats, clean);
    HandedSameIff(noted, handed, op, key, snap);
    forall dep | dep in op.deps && reg.IsSource(dep)
      ensures Cell(dep, None) in snap && Cell(dep, None) in clean
      ensures snap[Cell(dep, None)].fp == clean[Cell(dep, None)].fp
    {
      WholeInputAgrees(noted, sets, op, key, row, snap, mats, clean, dep);
    }
    OutsideAgrees(reg, op, snap, clean);
  }

  // ----------------------------------------------------------- a fresh cell is clean

  ghost predicate Honest(reg: Registry, world: World, history: History, sets: Sets, order: Option<Drops>, mats: Mats) {
    && AllRecorded(history, mats)
    && forall c, row :: (c, row) in history && c.asset in reg.byName && !reg.IsSource(c.asset) ==>
         Explained(reg, world, history, sets, order, c, row)
  }

  lemma FaithfulRows(history: History, snap: Mats, mats: Mats)
    requires Faithful(history)
    requires AllRecorded(history, snap) && AllRecorded(history, mats)
    ensures SameFpSameValue(snap, mats)
  {
  }

  lemma DerivedFacts(reg: Registry, a: Name)
    requires reg.Valid() && a in reg.byName && !reg.IsSource(a)
    ensures reg.OpFor(a).deps == reg.Meta(a).deps && reg.OpFor(a).maps == reg.Meta(a).maps
    ensures OpDepsBefore(reg, a)
  {
    ProducerMakes(reg, a);
    assert reg.ValidMeta(reg.byName[a]);
  }

  lemma SourcesUnpartitioned(reg: Registry, sets: Sets)
    requires reg.Valid() && SetsFor(reg, sets)
    ensures forall a :: reg.IsSource(a) ==> a !in sets
  {
    forall a | reg.IsSource(a) ensures a !in sets {
      assert reg.ValidMeta(reg.byName[a]);
    }
  }

  // Upstream of `c`, every cell it reads is in the clean build with its stored value.
  ghost predicate CleanUpstream(reg: Registry, sets: Sets, mats: Mats, clean: Mats, c: Cell)
    requires reg.Valid() && c.asset in reg.byName
  {
    forall d :: ReadsCell(reg, sets, c, d) ==> d in mats && d in clean && clean[d].value == mats[d].value
  }

  lemma EdgesOfFresh(reg: Registry, sets: Sets, mats: Mats, clean: Mats, c: Cell, op: OpMeta, dep: Name)
    requires reg.Valid() && c.asset in reg.byName && Fresh(reg, sets, mats, c)
    requires CleanUpstream(reg, sets, mats, clean, c)
    requires op.deps == reg.Meta(c.asset).deps && op.maps == reg.Meta(c.asset).maps && dep in op.deps
    ensures EdgeAgrees(sets, op, c.key, mats[c], mats, clean, dep)
  {
    forall at | at in Consulted(sets, op.maps, dep, c.key)
      ensures KeyAgrees(Had(sets, op.maps, mats[c], dep, at), mats, clean, Cell(dep, at))
    {
      assert ReadsCell(reg, sets, c, Cell(dep, at));
      assert EdgeHolds(reg, sets, mats, c, Cell(dep, at));
    }
  }

  lemma SourcesClean(reg: Registry, sets: Sets, world: World, mats: Mats, deps: seq<Name>)
    requires reg.NamesIndexed()
    ensures forall dep :: dep in deps && reg.IsSource(dep) && Cell(dep, None) in mats ==>
              Cell(dep, None) in CleanBuild(reg, sets, world, mats)
              && CleanBuild(reg, sets, world, mats)[Cell(dep, None)] == mats[Cell(dep, None)]
  {
    forall dep | dep in deps && reg.IsSource(dep) && Cell(dep, None) in mats
      ensures Cell(dep, None) in CleanBuild(reg, sets, world, mats)
              && CleanBuild(reg, sets, world, mats)[Cell(dep, None)] == mats[Cell(dep, None)]
    {
      SourceIsClean(reg, sets, world, mats, Cell(dep, None));
    }
  }

  /** A stored row has recorded no key its asset no longer reads: read off the row and the key sets, before asking. */
  ghost predicate NothingDropped(reg: Registry, sets: Sets, mats: Mats, c: Cell) {
    c in mats && !reg.IsSource(c.asset) ==> StillReadsAll(sets, reg.OpFor(c.asset), c.key, mats[c])
  }

  /** Nor has any row its reads reach. */
  ghost predicate NothingDroppedUnder(reg: Registry, sets: Sets, mats: Mats, c: Cell)
    requires reg.Valid()
  {
    forall p :: ReadPath(reg, sets, p) && p[0] == c ==> NothingDropped(reg, sets, mats, p[|p| - 1])
  }

  lemma DroppedUnderRead(reg: Registry, sets: Sets, mats: Mats, c: Cell, d: Cell)
    requires reg.Valid() && c.asset in reg.byName && NothingDroppedUnder(reg, sets, mats, c)
    requires ReadsCell(reg, sets, c, d) && d.asset in reg.byName
    ensures NothingDropped(reg, sets, mats, c) && NothingDroppedUnder(reg, sets, mats, d)
  {
    assert ReadPath(reg, sets, [c]);
    forall p | ReadPath(reg, sets, p) && p[0] == d ensures NothingDropped(reg, sets, mats, p[|p| - 1]) {
      PathFromReader(reg, sets, c, p);
    }
  }

  lemma PathFromReader(reg: Registry, sets: Sets, c: Cell, p: seq<Cell>)
    requires reg.Valid() && c.asset in reg.byName && ReadPath(reg, sets, p) && ReadsCell(reg, sets, c, p[0])
    ensures ReadPath(reg, sets, [c] + p) && ([c] + p)[|[c] + p| - 1] == p[|p| - 1]
  {
    var q := [c] + p;
    forall k | 0 <= k < |q| - 1 ensures ReadsCell(reg, sets, q[k], q[k + 1]) {
      if k > 0 {
        assert ReadsCell(reg, sets, p[k - 1], p[k - 1 + 1]);
      }
    }
  }

  lemma DerivedIsClean(reg: Registry, world: World, history: History, sets: Sets, dropped: Drops, mats: Mats, c: Cell)
    requires reg.Valid() && SetsFor(reg, sets) && c.asset in reg.byName && !reg.IsSource(c.asset)
    requires Honest(reg, world, history, sets, Some(dropped), mats) && Faithful(history) && NoneBack(sets, dropped)
    requires Fresh(reg, sets, mats, c) && c in OwnCells(sets, c.asset) && NothingDropped(reg, sets, mats, c)
    requires CleanUpstream(reg, sets, mats, CleanBuild(reg, sets, world, mats), c)
    ensures c in CleanBuild(reg, sets, world, mats) && CleanBuild(reg, sets, world, mats)[c].value == mats[c].value
  {
    var clean, op := CleanBuild(reg, sets, world, mats), reg.OpFor(c.asset);
    assert (c, mats[c]) in history;
    var noted: Sets, handed: Sets, snap: Mats :|
      && noted.Keys == handed.Keys == sets.Keys
      && ExplainedBy(reg, world, history, noted, handed, snap, c, mats[c])
      && InOrder(dropped, noted, handed, op, snap);
    FaithfulRows(history, snap, mats);
    DerivedFacts(reg, c.asset);
    forall dep | dep in op.deps ensures EdgeAgrees(sets, op, c.key, mats[c], mats, clean, dep) {
      EdgesOfFresh(reg, sets, mats, clean, c, op, dep);
    }
    SourcesUnpartitioned(reg, sets);
    SourcesClean(reg, sets, world, mats, op.deps);
    OrderedIsSame(dropped, noted, handed, sets, op, c.key, mats[c], snap);
    OutputAgrees(reg, world, noted, handed, sets, op, c.key, mats[c], snap, mats, clean);
    CleanEquation(reg, sets, world, mats, c);
  }

  /**
   * The verdict "fresh" means the stored value is the from-scratch one, where
   * dropped keys stay dropped and none has been dropped from under it.
   */
  lemma {:induction false} FreshIsClean(reg: Registry, world: World, history: History, sets: Sets, dropped: Drops,
                                        mats: Mats, c: Cell)
    requires reg.Valid() && SetsFor(reg, sets) && c.asset in reg.byName
    requires Honest(reg, world, history, sets, Some(dropped), mats) && Faithful(history) && NoneBack(sets, dropped)
    requires Fresh(reg, sets, mats, c) && c in OwnCells(sets, c.asset) && NothingDroppedUnder(reg, sets, mats, c)
    ensures c in CleanBuild(reg, sets, world, mats) && CleanBuild(reg, sets, world, mats)[c].value == mats[c].value
    decreases reg.byName[c.asset]
  {
    if reg.IsSource(c.asset) {
      SourcesUnpartitioned(reg, sets);
      SourceIsClean(reg, sets, world, mats, c);
    } else {
      forall d | ReadsCell(reg, sets, c, d)
        ensures d in mats && d in CleanBuild(reg, sets, world, mats)
                && CleanBuild(reg, sets, world, mats)[d].value == mats[d].value
      {
        ReadsRank(reg, sets, c, d);
        assert EdgeHolds(reg, sets, mats, c, d);
        ReadsWellKeyed(reg, sets, c, d);
        DroppedUnderRead(reg, sets, mats, c, d);
        FreshIsClean(reg, world, history, sets, dropped, mats, d);
      }
      assert ReadPath(reg, sets, [c]);
      DerivedIsClean(reg, world, history, sets, dropped, mats, c);
    }
  }

  /** The rows a stored row's body was given, and the key sets they were noted and handed over at. */
  ghost predicate GivenBy(reg: Registry, world: World, history: History, sets: Sets, mats: Mats, c: Cell, noted: Sets,
                          handed: Sets, snap: Mats)
    requires c in mats
  {
    noted.Keys == handed.Keys == sets.Keys && ExplainedBy(reg, world, history, noted, handed, snap, c, mats[c])
  }

  /** The inputs a body was given are the ones a clean build would give it. */
  ghost predicate GivenAsClean(reg: Registry, world: World, sets: Sets, mats: Mats, c: Cell, handed: Sets, snap: Mats) {
    Inputs(handed, reg.OpFor(c.asset), c.key, snap)
    == Inputs(sets, reg.OpFor(c.asset), c.key, CleanBuild(reg, sets, world, mats))
  }

  /** The inputs a body was given are the ones its row recorded. */
  ghost predicate GivenAsRecorded(reg: Registry, c: Cell, noted: Sets, handed: Sets, snap: Mats) {
    Inputs(handed, reg.OpFor(c.asset), c.key, snap) == Inputs(noted, reg.OpFor(c.asset), c.key, snap)
  }

  /**
   * When what a fresh cell's body was given is what a clean build would give it,
   * everything it reads being clean: exactly when the captured keys it was handed
   * are the ones read now. And where it was handed what it recorded, that is
   * exactly when its row recorded no key that is no longer read.
   */
  lemma GivenCleanIff(reg: Registry, world: World, history: History, sets: Sets, mats: Mats, c: Cell, noted: Sets,
                      handed: Sets, snap: Mats)
    requires reg.Valid() && SetsFor(reg, sets) && c.asset in reg.byName && !reg.IsSource(c.asset)
    requires AllRecorded(history, mats) && Faithful(history) && Fresh(reg, sets, mats, c)
    requires GivenBy(reg, world, history, sets, mats, c, noted, handed, snap)
    requires CleanUpstream(reg, sets, mats, CleanBuild(reg, sets, world, mats), c)
    ensures GivenAsClean(reg, world, sets, mats, c, handed, snap) <==>
              SameHanded(handed, sets, reg.OpFor(c.asset), c.key, snap)
    ensures GivenAsRecorded(reg, c, noted, handed, snap) <==> SameHanded(noted, handed, reg.OpFor(c.asset), c.key, snap)
    ensures GivenAsRecorded(reg, c, noted, handed, snap) ==>
              (GivenAsClean(reg, world, sets, mats, c, handed, snap) <==> NothingDropped(reg, sets, mats, c))
  {
    var clean, op := CleanBuild(reg, sets, world, mats), reg.OpFor(c.asset);
    FaithfulRows(history, snap, mats);
    DerivedFacts(reg, c.asset);
    forall dep | dep in op.deps ensures EdgeAgrees(sets, op, c.key, mats[c], mats, clean, dep) {
      EdgesOfFresh(reg, sets, mats, clean, c, op, dep);
    }
    InputsIff(noted, sets, op, c.key, mats[c], snap, mats, clean);
    NowAgrees(noted, sets, op, c.key, mats[c], snap, mats, clean);
    HandedSameIff(handed, sets, op, c.key, snap);
    HandedSameIff(noted, handed, op, c.key, snap);
  }
}
