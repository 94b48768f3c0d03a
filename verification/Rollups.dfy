/** A rollup whose dep loses a key: after the row is made, and while it is being made. */
module Rollups {
  import opened Prelude
  import opened Assets
  import opened Freshness
  import opened Builds
  import opened Memo
  import opened MemoRuns

  /** `r` rolls up every key of `d`. */
  function Rollup(d: Name, r: Name): Registry {
    Registry([AssetMeta(d, false, None, [], map[], Some(d), Some(Partitions(7))),
              AssetMeta(r, false, None, [d], map[d := All], Some(r), None)],
             map[d := 0, r := 1],
             [OpMeta(d, [d], [], map[], Some(Partitions(7))), OpMeta(r, [r], [d], map[d := All], None)],
             map[d := 0, r := 1])
  }

  // The rollup's body passes on what it was handed.
  function PassOn(d: Name): World {
    World((op: Name, key: Option<Key>, inputs: map<Name, Value>, outside: map<Name, Print>) =>
            if d in inputs then inputs[d] else Null)
  }

  // Both keys built, and rolled up.
  function RolledUp(d: Name, r: Name, k: Key, l: Key): Mats {
    map[Cell(d, Some(k)) := Mat("1", map[], Null, None), Cell(d, Some(l)) := Mat("1", map[], Null, None),
        Cell(r, None) := Mat("1", map[d := Object(map[k := Text("1"), l := Text("1")])],
                             Object(map[k := Null, l := Null]), None)]
  }

  function AllRows(mats: Mats): History {
    set c | c in mats :: (c, mats[c])
  }

  lemma RollupIndexed(d: Name, r: Name)
    requires d != r
    ensures Rollup(d, r).NamesIndexed() && Rollup(d, r).OpsIndexed()
  {
  }

  lemma RollupMetas(d: Name, r: Name, i: nat)
    requires d != r && i < 2 && Rollup(d, r).NamesIndexed() && Rollup(d, r).OpsIndexed()
    ensures Rollup(d, r).ValidMeta(i) && Rollup(d, r).ValidOp(Rollup(d, r).ops[i])
    ensures Rollup(d, r).Least(Rollup(d, r).ops[i].produces) == i
  {
    assert i == 0 || i == 1;
  }

  lemma RollupValid(d: Name, r: Name, keys: seq<Key>)
    requires d != r
    ensures Rollup(d, r).Valid() && SetsFor(Rollup(d, r), map[d := keys])
  {
    var reg := Rollup(d, r);
    RollupIndexed(d, r);
    forall i | 0 <= i < 2 ensures reg.ValidMeta(i) && reg.ValidOp(reg.ops[i]) && reg.Least(reg.ops[i].produces) == i {
      RollupMetas(d, r, i);
    }
  }

  lemma RolledInputs(d: Name, r: Name, k: Key, l: Key)
    requires d != r && k != l
    ensures Input(map[d := [k, l]], Rollup(d, r).ops[1], None, RolledUp(d, r, k, l), d)
         == Some(Object(map[k := Null, l := Null]))
    ensures Recorded(map[d := [k, l]], Rollup(d, r).ops[1], None, RolledUp(d, r, k, l), d)
         == Object(map[k := Text("1"), l := Text("1")])
  {
    var mats, sets, op := RolledUp(d, r, k, l), map[d := [k, l]], Rollup(d, r).ops[1];
    var keys := ReadKeys(sets, op.maps, d, None);
    assert keys == [k, l];
    assert (map x | x in keys && Cell(d, Some(x)) in mats :: mats[Cell(d, Some(x))].value) == map[k := Null, l := Null];
    assert (map x | x in keys :: FpValue(PrintOf(mats, Cell(d, Some(x))))) == map[k := Text("1"), l := Text("1")];
  }

  lemma RolledExplained(d: Name, r: Name, k: Key, l: Key)
    requires d != r && k != l
    ensures ExplainedBy(Rollup(d, r), PassOn(d), AllRows(RolledUp(d, r, k, l)), map[d := [k, l]],
                        map[d := [k, l]], RolledUp(d, r, k, l), Cell(r, None), RolledUp(d, r, k, l)[Cell(r, None)])
  {
    RolledInputs(d, r, k, l);
    var mats, sets, op := RolledUp(d, r, k, l), map[d := [k, l]], Rollup(d, r).ops[1];
    assert Rollup(d, r).OpFor(r) == op && op.deps == [d];
    assert RecordedInputs(sets, op, None, mats) == map[d := Object(map[k := Text("1"), l := Text("1")])];
    assert Inputs(sets, op, None, mats)[d] == Object(map[k := Null, l := Null]);
  }

  lemma PartExplained(d: Name, r: Name, k: Key, l: Key, key: Key)
    requires d != r && k != l && key in [k, l]
    ensures ExplainedBy(Rollup(d, r), PassOn(d), AllRows(RolledUp(d, r, k, l)), map[d := [k, l]],
                        map[d := [k, l]], RolledUp(d, r, k, l), Cell(d, Some(key)),
                        RolledUp(d, r, k, l)[Cell(d, Some(key))])
  {
    var mats, sets, op := RolledUp(d, r, k, l), map[d := [k, l]], Rollup(d, r).ops[0];
    assert Rollup(d, r).OpFor(d) == op && op.deps == [];
    assert RecordedInputs(sets, op, Some(key), mats) == map[];
    assert Inputs(sets, op, Some(key), mats) == map[];
  }

  lemma RollupExplained(d: Name, r: Name, k: Key, l: Key, c: Cell)
    requires d != r && k != l && c in RolledUp(d, r, k, l)
    ensures ExplainedBy(Rollup(d, r), PassOn(d), AllRows(RolledUp(d, r, k, l)), map[d := [k, l]],
                        map[d := [k, l]], RolledUp(d, r, k, l), c, RolledUp(d, r, k, l)[c])
  {
    if c.asset == d {
      PartExplained(d, r, k, l, c.key.value);
    } else {
      RolledExplained(d, r, k, l);
    }
  }

  // Noted and handed over at one moment, a row is explained in any order.
  lemma ExplainedAtOnce(reg: Registry, world: World, history: History, sets0: Sets, sets: Sets, dropped: Drops,
                        snap: Mats, c: Cell, row: Mat)
    requires sets0.Keys == sets.Keys && ExplainedBy(reg, world, history, sets0, sets0, snap, c, row)
    ensures Explained(reg, world, history, sets, Some(dropped), c, row)
  {
    assert InOrder(dropped, sets0, sets0, reg.OpFor(c.asset), snap);
  }

  lemma RollupFresh(d: Name, r: Name, k: Key, l: Key)
    requires d != r && k != l && Rollup(d, r).Valid()
    ensures Fresh(Rollup(d, r), map[d := [l]], RolledUp(d, r, k, l), Cell(r, None))
  {
    var reg, sets, mats := Rollup(d, r), map[d := [l]], RolledUp(d, r, k, l);
    assert Fresh(reg, sets, mats, Cell(d, Some(l)));
    assert Consulted(sets, reg.Meta(r).maps, d, None) == [Some(l)];
  }

  lemma RollupDropped(d: Name, r: Name, k: Key, l: Key)
    requires d != r && k != l
    ensures !NothingDropped(Rollup(d, r), map[d := [l]], RolledUp(d, r, k, l), Cell(r, None))
  {
    var reg, sets, row := Rollup(d, r), map[d := [l]], RolledUp(d, r, k, l)[Cell(r, None)];
    assert reg.OpFor(r) == reg.ops[1];
    assert AsText(Field(Lookup(row.inputs, d), k)).Some?;
    assert ReadKeys(sets, reg.ops[1].maps, d, None) == [l];
    assert !StillReads(sets, reg.ops[1].maps, None, row, d);
  }

  lemma RollupClean(d: Name, r: Name, k: Key, l: Key)
    requires d != r && k != l && Rollup(d, r).Valid()
    ensures Cell(r, None) in CleanBuild(Rollup(d, r), map[d := [l]], PassOn(d), RolledUp(d, r, k, l))
    ensures CleanBuild(Rollup(d, r), map[d := [l]], PassOn(d), RolledUp(d, r, k, l))[Cell(r, None)].value
         != RolledUp(d, r, k, l)[Cell(r, None)].value
  {
    var reg, sets, mats, c := Rollup(d, r), map[d := [l]], RolledUp(d, r, k, l), Cell(r, None);
    DerivedFacts(reg, r);
    CleanEquation(reg, sets, PassOn(d), mats, c);
    var clean, op := CleanBuild(reg, sets, PassOn(d), mats), reg.OpFor(r);
    assert ReadKeys(sets, op.maps, d, None) == [l];
    var input := Input(sets, op, None, clean, d);
    assert input.Some? && input.value.Object? && k !in input.value.fields;
    assert Inputs(sets, op, None, clean)[d] == input.value;
    assert k in mats[c].value.fields;
  }

  /**
   * Once a key its reader rolled up has dropped out of a dep's key set, the
   * reader is still called fresh and no longer holds what a clean build would:
   * the store is honest, the fingerprints tell values apart, the dropped key stays
   * dropped, and the one thing missing is that the row recorded no key dropped since.
   */
  lemma ShrunkSetBreaksClean(d: Name, r: Name, k: Key, l: Key)
    requires d != r && k != l
    ensures Rollup(d, r).Valid() && SetsFor(Rollup(d, r), map[d := [k, l]]) && SetsFor(Rollup(d, r), map[d := [l]])
    ensures Faithful(AllRows(RolledUp(d, r, k, l)))
    ensures Honest(Rollup(d, r), PassOn(d), AllRows(RolledUp(d, r, k, l)), map[d := [l]], Some({(d, k)}),
                   RolledUp(d, r, k, l))
    ensures NoneBack(map[d := [l]], {(d, k)})
    ensures !NothingDropped(Rollup(d, r), map[d := [l]], RolledUp(d, r, k, l), Cell(r, None))
    ensures Fresh(Rollup(d, r), map[d := [l]], RolledUp(d, r, k, l), Cell(r, None))
    ensures Cell(r, None) in CleanBuild(Rollup(d, r), map[d := [l]], PassOn(d), RolledUp(d, r, k, l))
    ensures CleanBuild(Rollup(d, r), map[d := [l]], PassOn(d), RolledUp(d, r, k, l))[Cell(r, None)].value
         != RolledUp(d, r, k, l)[Cell(r, None)].value
  {
    RollupValid(d, r, [k, l]);
    RollupValid(d, r, [l]);
    RolledHonest(d, r, k, l);
    RollupDropped(d, r, k, l);
    RollupFresh(d, r, k, l);
    RollupClean(d, r, k, l);
  }

  lemma RolledHonest(d: Name, r: Name, k: Key, l: Key)
    requires d != r && k != l && Rollup(d, r).NamesIndexed() && Rollup(d, r).OpsIndexed()
    ensures Faithful(AllRows(RolledUp(d, r, k, l)))
    ensures Honest(Rollup(d, r), PassOn(d), AllRows(RolledUp(d, r, k, l)), map[d := [l]], Some({(d, k)}),
                   RolledUp(d, r, k, l))
  {
    var sets0, sets, mats := map[d := [k, l]], map[d := [l]], RolledUp(d, r, k, l);
    forall c | c in mats ensures Explained(Rollup(d, r), PassOn(d), AllRows(mats), sets, Some({(d, k)}), c, mats[c]) {
      RollupExplained(d, r, k, l, c);
      ExplainedAtOnce(Rollup(d, r), PassOn(d), AllRows(mats), sets0, sets, {(d, k)}, mats, c, mats[c]);
    }
  }

  // ----------------------------------------------------------- a run, one step at a time

  ghost predicate Ends(reg: Registry, world: World, trace: seq<State>, s: State)
    requires reg.Valid()
  {
    Behaviour(reg, world, trace) && Steady(trace, |trace| - 1) && trace[|trace| - 1] == s
  }

  /** Some history that takes back no dropped key ends here. */
  ghost predicate Reached(reg: Registry, world: World, s: State)
    requires reg.Valid()
  {
    exists trace :: Ends(reg, world, trace, s)
  }

  lemma Starting(reg: Registry, world: World, sets: Sets)
    requires reg.Valid() && SetsFor(reg, sets)
    ensures Reached(reg, world, State(sets, {}, map[], {}, map[], map[]))
  {
    var s := State(sets, {}, map[], {}, map[], map[]);
    assert Ends(reg, world, [s], s);
  }

  lemma Onward(reg: Registry, world: World, s: State, t: State)
    requires reg.Valid() && Reached(reg, world, s) && Next(reg, world, s, t) && NoneBack(t.sets, t.dropped)
    ensures Reached(reg, world, t)
  {
    var trace :| Ends(reg, world, trace, s);
    var longer := trace + [t];
    forall i | 0 <= i < |longer| - 1 ensures Next(reg, world, longer[i], longer[i + 1]) {
      if i < |trace| - 1 {
        assert Next(reg, world, trace[i], trace[i + 1]);
      }
    }
    forall i | 0 <= i < |longer| ensures NoneBack(longer[i].sets, longer[i].dropped) {
      if i < |trace| {
        assert NoneBack(trace[i].sets, trace[i].dropped);
      }
    }
    assert Ends(reg, world, longer, t);
  }

  lemma GoOn(reg: Registry, world: World, s: State, t: State, job: Job)
    requires reg.Valid() && Reached(reg, world, s) && GoesOn(reg, world, s, t, job) && NoneBack(t.sets, t.dropped)
    ensures Reached(reg, world, t)
  {
    Onward(reg, world, s, t);
  }

  // A state with one build under way.
  function With(s: State, job: Job, b: Build): State {
    s.(builds := map[job := b])
  }

  lemma BeginOn(reg: Registry, world: World, s: State, job: Job)
    requires reg.OpsIndexed() && job.op in reg.byOp && s.builds == map[]
    ensures GoesOn(reg, world, s, With(s, job, Reading(s.sets, {}, map[])), job)
  {
    assert BeginStep(reg, s, With(s, job, Reading(s.sets, {}, map[])), job);
  }

  lemma ReadOn(reg: Registry, world: World, s: State, job: Job, listed: Sets, asked: set<Cell>, rows: Mats, d: Cell)
    requires reg.OpsIndexed() && d !in asked && d in s.mats
    ensures GoesOn(reg, world, With(s, job, Reading(listed, asked, rows)),
                   With(s, job, Reading(listed, asked + {d}, rows[d := s.mats[d]])), job)
  {
    assert ReadStep(With(s, job, Reading(listed, asked, rows)),
                    With(s, job, Reading(listed, asked + {d}, rows[d := s.mats[d]])), job, d);
  }

  function Saving(s: State, job: Job, rows: Mats): State {
    s.(saved := s.saved[job := rows])
  }

  lemma CaptureOn(reg: Registry, world: World, s: State, job: Job, listed: Sets, asked: set<Cell>, rows: Mats)
    requires reg.OpsIndexed() && job.op in reg.byOp && ReadAll(listed, reg.Op(job.op), job.key, asked)
    ensures GoesOn(reg, world, With(s, job, Reading(listed, asked, rows)),
                   With(Saving(s, job, rows), job, Noting(rows, s.sets)), job)
  {
    assert CaptureStep(reg, With(s, job, Reading(listed, asked, rows)),
                       With(Saving(s, job, rows), job, Noting(rows, s.sets)), job, None);
  }

  lemma NotedOn(reg: Registry, world: World, s: State, job: Job, snap: Mats, noted: Sets)
    requires reg.OpsIndexed()
    ensures GoesOn(reg, world, With(s, job, Noting(snap, noted)), With(s, job, Handing(snap, noted, s.sets)), job)
  {
    assert NotedStep(With(s, job, Noting(snap, noted)), With(s, job, Handing(snap, noted, s.sets)), job);
  }

  lemma BodyOn(reg: Registry, world: World, s: State, job: Job, op: OpMeta, b: Build, p: Pending)
    requires reg.OpsIndexed() && job.op in reg.byOp && reg.Op(job.op) == op && b.Handing?
    requires p == MadeOf(reg, world, op, job.key, b)
    ensures GoesOn(reg, world, With(s, job, b), With(s, job, Made(p)), job)
  {
    var t := With(s, job, b);
    WithMoved(s, job, b, Made(p));
    assert t.builds[job] == b;
    assert BodyStep(reg, world, t, With(s, job, Made(p)), job);
  }

  lemma WithMoved(s: State, job: Job, b: Build, b': Build)
    ensures With(s, job, b').builds == With(s, job, b).builds[job := b']
  {
  }

  function Committed(s: State, c: Cell, row: Mat): State {
    s.(mats := s.mats[c := row], history := s.history + {(c, row)}, builds := map[])
  }

  lemma CommitOn(reg: Registry, s: State, job: Job, op: OpMeta, p: Pending, c: Cell, row: Mat)
    requires reg.OpsIndexed() && job.op in reg.byOp && reg.Op(job.op) == op && |op.produces| == 1
    requires BuiltRows(op, job.key, job.run, p, Ones()) == map[c := row]
    ensures CommitStep(reg, With(s, job, Made(p)), Committed(s, c, row), job, Ones())
  {
    OneRow(s.mats, c, row);
    assert With(s, job, Made(p)).builds - {job} == map[];
  }

  lemma OneRow(mats: Mats, c: Cell, row: Mat)
    ensures var rows := map[c := row];
            mats + rows == mats[c := row] && (set x | x in rows :: (x, rows[x])) == {(c, row)}
  {
    var rows := map[c := row];
    assert c in rows;
    assert forall x :: x in rows <==> x == c;
  }

  // From captured rows to a committed one, the key sets staying as they are.
  lemma Finishes(reg: Registry, world: World, s: State, job: Job, op: OpMeta, snap: Mats, noted: Sets, p: Pending,
                 c: Cell, row: Mat)
    requires reg.Valid() && job.op in reg.byOp && reg.Op(job.op) == op && |op.produces| == 1
    requires Reached(reg, world, With(s, job, Noting(snap, noted))) && NoneBack(s.sets, s.dropped)
    requires p == MadeOf(reg, world, op, job.key, Handing(snap, noted, s.sets))
    requires BuiltRows(op, job.key, job.run, p, Ones()) == map[c := row]
    ensures Reached(reg, world, Committed(s, c, row))
  {
    NotedOn(reg, world, s, job, snap, noted);
    GoOn(reg, world, With(s, job, Noting(snap, noted)), With(s, job, Handing(snap, noted, s.sets)), job);
    BodyOn(reg, world, s, job, op, Handing(snap, noted, s.sets), p);
    GoOn(reg, world, With(s, job, Handing(snap, noted, s.sets)), With(s, job, Made(p)), job);
    CommitOn(reg, s, job, op, p, c, row);
    Onward(reg, world, With(s, job, Made(p)), Committed(s, c, row));
  }

  // From nothing under way to the rows of an op that reads nothing, captured.
  lemma CapturesNone(reg: Registry, world: World, s: State, job: Job)
    requires reg.Valid() && job.op in reg.byOp && reg.Op(job.op).deps == []
    requires Reached(reg, world, s) && s.builds == map[] && NoneBack(s.sets, s.dropped)
    ensures Reached(reg, world, With(Saving(s, job, map[]), job, Noting(map[], s.sets)))
  {
    BeginOn(reg, world, s, job);
    GoOn(reg, world, s, With(s, job, Reading(s.sets, {}, map[])), job);
    CaptureOn(reg, world, s, job, s.sets, {}, map[]);
    GoOn(reg, world, With(s, job, Reading(s.sets, {}, map[])), With(Saving(s, job, map[]), job, Noting(map[], s.sets)),
         job);
  }

  // And of one that reads two rows.
  lemma CapturesTwo(reg: Registry, world: World, s: State, job: Job, a: Cell, b: Cell, rows: Mats)
    requires reg.Valid() && job.op in reg.byOp && a != b && a in s.mats && b in s.mats
    requires ReadAll(s.sets, reg.Op(job.op), job.key, {a, b}) && rows == map[a := s.mats[a], b := s.mats[b]]
    requires Reached(reg, world, s) && s.builds == map[] && NoneBack(s.sets, s.dropped)
    ensures Reached(reg, world, With(Saving(s, job, rows), job, Noting(rows, s.sets)))
  {
    BeginOn(reg, world, s, job);
    GoOn(reg, world, s, With(s, job, Reading(s.sets, {}, map[])), job);
    ReadOn(reg, world, s, job, s.sets, {}, map[], a);
    assert {} + {a} == {a} && {a} + {b} == {a, b} && map[a := s.mats[a]][b := s.mats[b]] == rows;
    GoOn(reg, world, With(s, job, Reading(s.sets, {}, map[])), With(s, job, Reading(s.sets, {a}, map[a := s.mats[a]])),
         job);
    ReadOn(reg, world, s, job, s.sets, {a}, map[a := s.mats[a]], b);
    GoOn(reg, world, With(s, job, Reading(s.sets, {a}, map[a := s.mats[a]])),
         With(s, job, Reading(s.sets, {a, b}, rows)), job);
    CaptureOn(reg, world, s, job, s.sets, {a, b}, rows);
    GoOn(reg, world, With(s, job, Reading(s.sets, {a, b}, rows)), With(Saving(s, job, rows), job, Noting(rows, s.sets)),
         job);
  }

  function Ticked(s: State, sets: Sets): State {
    s.(sets := sets, dropped := s.dropped + Gone(s.sets, sets))
  }

  lemma Ticks(reg: Registry, world: World, s: State, sets: Sets)
    requires reg.Valid() && Reached(reg, world, s) && SetsFor(reg, sets)
    requires NoneBack(sets, s.dropped + Gone(s.sets, sets))
    ensures Reached(reg, world, Ticked(s, sets))
  {
    assert TickStep(reg, s, Ticked(s, sets));
    Onward(reg, world, s, Ticked(s, sets));
  }

  function Ones(): Name -> Print {
    (a: Name) => "1"
  }

  // ----------------------------------------------------------- a key dropped before it is handed over

  function PartOp(d: Name): OpMeta {
    OpMeta(d, [d], [], map[], Some(Partitions(7)))
  }

  function RollupOp(d: Name, r: Name): OpMeta {
    OpMeta(r, [r], [d], map[d := All], None)
  }

  /** What matters here of the registry. */
  ghost predicate RollsUp(reg: Registry, d: Name, r: Name) {
    && reg.Valid() && d != r && d in reg.byOp && r in reg.byOp && d in reg.byName && r in reg.byName
    && reg.Op(d) == PartOp(d) && reg.Op(r) == RollupOp(d, r) && reg.OpFor(d) == PartOp(d)
    && reg.OpFor(r) == RollupOp(d, r)
    && !reg.IsSource(d) && !reg.IsSource(r)
    && reg.Meta(d).deps == [] && reg.Meta(r).deps == [d] && reg.Meta(r).maps == map[d := All]
    && forall keys :: SetsFor(reg, map[d := keys])
  }

  lemma RollupRollsUp(d: Name, r: Name)
    requires d != r
    ensures RollsUp(Rollup(d, r), d, r)
  {
    RollupIndexed(d, r);
    forall keys ensures SetsFor(Rollup(d, r), map[d := keys]) {
      RollupValid(d, r, keys);
    }
    RollupValid(d, r, []);
    RollupLooks(d, r);
  }

  lemma RollupLooks(d: Name, r: Name)
    requires d != r && Rollup(d, r).NamesIndexed() && Rollup(d, r).OpsIndexed()
    ensures var reg := Rollup(d, r);
            && d in reg.byOp && r in reg.byOp && d in reg.byName && r in reg.byName
            && reg.Op(d) == PartOp(d) && reg.Op(r) == RollupOp(d, r) && reg.OpFor(d) == PartOp(d)
            && reg.OpFor(r) == RollupOp(d, r)
            && !reg.IsSource(d) && !reg.IsSource(r)
            && reg.Meta(d).deps == [] && reg.Meta(r).deps == [d] && reg.Meta(r).maps == map[d := All]
  {
  }

  // The row of one key of `d`.
  function PartRow(run: string): Mat {
    Mat("1", map[], Null, Some(run))
  }

  lemma PartMade(reg: Registry, d: Name, key: Key, sets: Sets)
    ensures MadeOf(reg, PassOn(d), PartOp(d), Some(key), Handing(map[], sets, sets)) == Pending(map[], Null)
  {
    assert RecordedInputs(sets, PartOp(d), Some(key), map[]) == map[];
    assert Inputs(sets, PartOp(d), Some(key), map[]) == map[];
  }

  lemma PartCommits(d: Name, key: Key, run: string)
    ensures BuiltRows(PartOp(d), Some(key), run, Pending(map[], Null), Ones())
         == map[Cell(d, Some(key)) := PartRow(run)]
  {
    assert d in PartOp(d).produces;
    assert OpCells(PartOp(d), Some(key)) == {Cell(d, Some(key))};
  }

  /** One key of `d` built, with nothing else under way. */
  lemma BuildPart(reg: Registry, d: Name, r: Name, key: Key, run: string, s: State) returns (t: State)
    requires RollsUp(reg, d, r) && Reached(reg, PassOn(d), s) && s.builds == map[] && s.dropped == {}
    ensures Reached(reg, PassOn(d), t)
    ensures t.mats == s.mats[Cell(d, Some(key)) := PartRow(run)]
    ensures t.history == s.history + {(Cell(d, Some(key)), PartRow(run))}
    ensures t.sets == s.sets && t.dropped == {} && t.builds == map[]
  {
    var world, job := PassOn(d), Job(run, d, Some(key));
    CapturesNone(reg, world, s, job);
    PartMade(reg, d, key, s.sets);
    PartCommits(d, key, run);
    var saving := Saving(s, job, map[]);
    Finishes(reg, world, saving, job, PartOp(d), map[], s.sets, Pending(map[], Null), Cell(d, Some(key)), PartRow(run));
    t := Committed(saving, Cell(d, Some(key)), PartRow(run));
  }

  // Both keys of `d`, as built.
  function Parts(d: Name, k: Key, l: Key): Mats {
    map[Cell(d, Some(k)) := PartRow("k"), Cell(d, Some(l)) := PartRow("l")]
  }

  lemma PartsBuilt(reg: Registry, d: Name, r: Name, k: Key, l: Key) returns (s: State)
    requires RollsUp(reg, d, r) && k != l
    ensures Reached(reg, PassOn(d), s) && s.sets == map[d := [k, l]] && s.dropped == {}
    ensures s.mats == Parts(d, k, l) && s.builds == map[]
    ensures s.history == {(Cell(d, Some(k)), PartRow("k")), (Cell(d, Some(l)), PartRow("l"))}
  {
    var sets := map[d := [k, l]];
    assert SetsFor(reg, sets);
    Starting(reg, PassOn(d), sets);
    s := BuildPart(reg, d, r, k, "k", State(sets, {}, map[], {}, map[], map[]));
    s := BuildPart(reg, d, r, l, "l", s);
    assert s.mats == Parts(d, k, l);
  }

  // What the rollup recorded of both keys, and what its body made of the one it was handed.
  function RollupRow(d: Name, k: Key, l: Key): Mat {
    Mat("1", map[d := Object(map[k := Text("1"), l := Text("1")])], Object(map[l := Null]), Some("r"))
  }

  lemma RollupReads(d: Name, r: Name, k: Key, l: Key)
    ensures ReadAll(map[d := [k, l]], RollupOp(d, r), None, {Cell(d, Some(k)), Cell(d, Some(l))})
  {
    assert ReadKeys(map[d := [k, l]], RollupOp(d, r).maps, d, None) == [k, l];
  }

  lemma RollupRecords(d: Name, r: Name, k: Key, l: Key)
    requires k != l
    ensures RecordedInputs(map[d := [k, l]], RollupOp(d, r), None, Parts(d, k, l)) == RollupRow(d, k, l).inputs
  {
    var op, snap, noted := RollupOp(d, r), Parts(d, k, l), map[d := [k, l]];
    var was := ReadKeys(noted, op.maps, d, None);
    assert was == [k, l];
    assert (map x | x in was :: FpValue(PrintOf(snap, Cell(d, Some(x))))) == map[k := Text("1"), l := Text("1")];
    assert Recorded(noted, op, None, snap, d) == Object(map[k := Text("1"), l := Text("1")]);
  }

  lemma RollupMade(reg: Registry, d: Name, r: Name, k: Key, l: Key)
    requires k != l
    ensures MadeOf(reg, PassOn(d), RollupOp(d, r), None, Handing(Parts(d, k, l), map[d := [k, l]], map[d := [l]]))
         == Pending(RollupRow(d, k, l).inputs, RollupRow(d, k, l).value)
  {
    var op, snap, handed := RollupOp(d, r), Parts(d, k, l), map[d := [l]];
    RollupRecords(d, r, k, l);
    var now := ReadKeys(handed, op.maps, d, None);
    assert now == [l];
    assert (map x | x in now && Cell(d, Some(x)) in snap :: snap[Cell(d, Some(x))].value) == map[l := Null];
    assert Input(handed, op, None, snap, d) == Some(Object(map[l := Null]));
    assert Inputs(handed, op, None, snap)[d] == Object(map[l := Null]);
  }

  lemma RollupCommits(d: Name, r: Name, k: Key, l: Key)
    ensures BuiltRows(RollupOp(d, r), None, "r", Pending(RollupRow(d, k, l).inputs, RollupRow(d, k, l).value), Ones())
         == map[Cell(r, None) := RollupRow(d, k, l)]
  {
    assert r in RollupOp(d, r).produces;
    assert OpCells(RollupOp(d, r), None) == {Cell(r, None)};
  }

  // Both rows captured and noted, the key goes, and the body is handed what is left.
  lemma RollupRaced(reg: Registry, d: Name, r: Name, k: Key, l: Key, s: State) returns (t: State)
    requires RollsUp(reg, d, r) && k != l && Reached(reg, PassOn(d), s) && s.sets == map[d := [k, l]] && s.dropped == {}
    requires s.mats == Parts(d, k, l) && s.builds == map[]
    ensures Reached(reg, PassOn(d), t) && t.sets == map[d := [l]]
    ensures t.mats == s.mats[Cell(r, None) := RollupRow(d, k, l)]
    ensures t.history == s.history + {(Cell(r, None), RollupRow(d, k, l))}
  {
    var world, job, now, snap := PassOn(d), Job("r", r, None), map[d := [l]], Parts(d, k, l);
    RollupReads(d, r, k, l);
    CapturesTwo(reg, world, s, job, Cell(d, Some(k)), Cell(d, Some(l)), snap);
    KeyGone(d, k, l);
    assert SetsFor(reg, now);
    TickOn(reg, world, Saving(s, job, snap), job, Noting(snap, s.sets), now);
    var ticked := Ticked(Saving(s, job, snap), now);
    RollupFinishes(reg, d, r, k, l, ticked);
    t := Committed(ticked, Cell(r, None), RollupRow(d, k, l));
  }

  lemma KeyGone(d: Name, k: Key, l: Key)
    requires k != l
    ensures Gone(map[d := [k, l]], map[d := [l]]) == {(d, k)} && NoneBack(map[d := [l]], {} + {(d, k)})
  {
    var was, now := map[d := [k, l]], map[d := [l]];
    assert k in was[d] && l in was[d] && l in now[d];
  }

  lemma TickOn(reg: Registry, world: World, s: State, job: Job, b: Build, sets: Sets)
    requires reg.Valid() && Reached(reg, world, With(s, job, b)) && SetsFor(reg, sets)
    requires NoneBack(sets, s.dropped + Gone(s.sets, sets))
    ensures Reached(reg, world, With(Ticked(s, sets), job, b))
  {
    Ticks(reg, world, With(s, job, b), sets);
    assert Ticked(With(s, job, b), sets) == With(Ticked(s, sets), job, b);
  }

  lemma RollupFinishes(reg: Registry, d: Name, r: Name, k: Key, l: Key, s: State)
    requires RollsUp(reg, d, r) && k != l && s.sets == map[d := [l]] && NoneBack(s.sets, s.dropped)
    requires Reached(reg, PassOn(d), With(s, Job("r", r, None), Noting(Parts(d, k, l), map[d := [k, l]])))
    ensures Reached(reg, PassOn(d), Committed(s, Cell(r, None), RollupRow(d, k, l)))
  {
    RollupMade(reg, d, r, k, l);
    RollupCommits(d, r, k, l);
    var made := Pending(RollupRow(d, k, l).inputs, RollupRow(d, k, l).value);
    Finishes(reg, PassOn(d), s, Job("r", r, None), RollupOp(d, r), Parts(d, k, l), map[d := [k, l]], made,
             Cell(r, None),
             RollupRow(d, k, l));
  }

  // The store the run ends with.
  function RacedMats(d: Name, r: Name, k: Key, l: Key): Mats {
    Parts(d, k, l)[Cell(r, None) := RollupRow(d, k, l)]
  }

  lemma RacedFresh(reg: Registry, d: Name, r: Name, k: Key, l: Key)
    requires RollsUp(reg, d, r) && k != l
    ensures Fresh(reg, map[d := [l]], RacedMats(d, r, k, l), Cell(r, None))
    ensures !NothingDropped(reg, map[d := [l]], RacedMats(d, r, k, l), Cell(r, None))
  {
    var sets, mats := map[d := [l]], RacedMats(d, r, k, l);
    assert Fresh(reg, sets, mats, Cell(d, Some(l)));
    assert Consulted(sets, reg.Meta(r).maps, d, None) == [Some(l)];
    assert AsText(Field(Lookup(mats[Cell(r, None)].inputs, d), k)).Some?;
    assert ReadKeys(sets, RollupOp(d, r).maps, d, None) == [l];
    assert !StillReads(sets, RollupOp(d, r).maps, None, mats[Cell(r, None)], d);
  }

  lemma RacedClean(reg: Registry, d: Name, r: Name, k: Key, l: Key)
    requires RollsUp(reg, d, r) && k != l
    ensures CleanUpstream(reg, map[d := [l]], RacedMats(d, r, k, l),
                          CleanBuild(reg, map[d := [l]], PassOn(d), RacedMats(d, r, k, l)), Cell(r, None))
  {
    var sets, mats := map[d := [l]], RacedMats(d, r, k, l);
    var clean := CleanBuild(reg, sets, PassOn(d), mats);
    forall e | ReadsCell(reg, sets, Cell(r, None), e)
      ensures e in mats && e in clean && clean[e].value == mats[e].value
    {
      assert Consulted(sets, reg.Meta(r).maps, d, None) == [Some(l)];
      assert e == Cell(d, Some(l));
      DerivedFacts(reg, d);
      CleanEquation(reg, sets, PassOn(d), mats, e);
      assert Inputs(sets, PartOp(d), e.key, clean) == map[];
    }
  }

  lemma RacedExplained(reg: Registry, d: Name, r: Name, k: Key, l: Key, history: History)
    requires RollsUp(reg, d, r) && k != l && AllRecorded(history, Parts(d, k, l))
    ensures ExplainedBy(reg, PassOn(d), history, map[d := [k, l]], map[d := [l]], Parts(d, k, l), Cell(r, None),
                        RollupRow(d, k, l))
  {
    RollupMade(reg, d, r, k, l);
  }

  lemma RacedHanded(d: Name, r: Name, k: Key, l: Key)
    requires k != l
    ensures SameHanded(map[d := [l]], map[d := [l]], RollupOp(d, r), None, Parts(d, k, l))
    ensures !SameHanded(map[d := [k, l]], map[d := [l]], RollupOp(d, r), None, Parts(d, k, l))
  {
    var op := RollupOp(d, r);
    assert ReadKeys(map[d := [k, l]], op.maps, d, None) == [k, l] && ReadKeys(map[d := [l]], op.maps, d, None) == [l];
    assert k in [k, l] && k !in [l];
    assert d in op.deps && Cell(d, Some(k)) in Parts(d, k, l);
  }

  /**
   * A key dropped between the noting and the hand-over, in a run from the empty
   * store: the row records the key's fingerprint though its body never saw the
   * row, and is fresh with a dropped key recorded, and its body was given exactly
   * what a clean build would give it.
   */
  lemma DroppedBeforeHandedOver(d: Name, r: Name, k: Key, l: Key)
    returns (trace: seq<State>, noted: Sets, handed: Sets, snap: Mats)
    requires d != r && k != l
    ensures Rollup(d, r).Valid() && Behaviour(Rollup(d, r), PassOn(d), trace) && Steady(trace, |trace| - 1)
    ensures var s, c := trace[|trace| - 1], Cell(r, None);
            && c.asset in Rollup(d, r).byName && Fresh(Rollup(d, r), s.sets, s.mats, c)
            && !NothingDropped(Rollup(d, r), s.sets, s.mats, c)
            && GivenBy(Rollup(d, r), PassOn(d), s.history, s.sets, s.mats, c, noted, handed, snap)
            && GivenAsClean(Rollup(d, r), PassOn(d), s.sets, s.mats, c, handed, snap)
            && !GivenAsRecorded(Rollup(d, r), c, noted, handed, snap)
  {
    RollupRollsUp(d, r);
    trace := RacedTrace(Rollup(d, r), d, r, k, l);
    noted, handed, snap := map[d := [k, l]], map[d := [l]], Parts(d, k, l);
  }

  lemma RacedTrace(reg: Registry, d: Name, r: Name, k: Key, l: Key) returns (trace: seq<State>)
    requires RollsUp(reg, d, r) && k != l
    ensures Behaviour(reg, PassOn(d), trace) && Steady(trace, |trace| - 1)
    ensures var s, c := trace[|trace| - 1], Cell(r, None);
            && Fresh(reg, s.sets, s.mats, c) && !NothingDropped(reg, s.sets, s.mats, c)
            && GivenBy(reg, PassOn(d), s.history, s.sets, s.mats, c, map[d := [k, l]], map[d := [l]], Parts(d, k, l))
            && GivenAsClean(reg, PassOn(d), s.sets, s.mats, c, map[d := [l]], Parts(d, k, l))
            && !GivenAsRecorded(reg, c, map[d := [k, l]], map[d := [l]], Parts(d, k, l))
  {
    var s := RacedRun(reg, d, r, k, l);
    RacedFresh(reg, d, r, k, l);
    RacedGiven(reg, d, r, k, l);
    trace :| Ends(reg, PassOn(d), trace, s);
  }

  lemma RacedRun(reg: Registry, d: Name, r: Name, k: Key, l: Key) returns (s: State)
    requires RollsUp(reg, d, r) && k != l
    ensures Reached(reg, PassOn(d), s) && s.sets == map[d := [l]] && s.mats == RacedMats(d, r, k, l)
    ensures s.history == RacedHistory(d, r, k, l)
  {
    s := PartsBuilt(reg, d, r, k, l);
    s := RollupRaced(reg, d, r, k, l, s);
  }

  function RacedHistory(d: Name, r: Name, k: Key, l: Key): History {
    {(Cell(d, Some(k)), PartRow("k")), (Cell(d, Some(l)), PartRow("l")), (Cell(r, None), RollupRow(d, k, l))}
  }

  lemma RacedRecorded(d: Name, r: Name, k: Key, l: Key)
    requires d != r && k != l
    ensures Faithful(RacedHistory(d, r, k, l))
    ensures AllRecorded(RacedHistory(d, r, k, l), RacedMats(d, r, k, l))
    ensures AllRecorded(RacedHistory(d, r, k, l), Parts(d, k, l))
  {
    var history := RacedHistory(d, r, k, l);
    assert (Cell(d, Some(k)), PartRow("k")) in history && (Cell(d, Some(l)), PartRow("l")) in history;
    assert (Cell(r, None), RollupRow(d, k, l)) in history;
    forall c, a, b | (c, a) in history && (c, b) in history ensures a == b {
      assert Cell(d, Some(k)) != Cell(d, Some(l)) && Cell(r, None) != Cell(d, Some(k));
      assert Cell(r, None) != Cell(d, Some(l));
    }
  }

  lemma RacedGiven(reg: Registry, d: Name, r: Name, k: Key, l: Key)
    requires RollsUp(reg, d, r) && k != l
    ensures var sets, mats, c := map[d := [l]], RacedMats(d, r, k, l), Cell(r, None);
            && GivenBy(reg, PassOn(d), RacedHistory(d, r, k, l), sets, mats, c, map[d := [k, l]], map[d := [l]],
                       Parts(d, k, l))
            && GivenAsClean(reg, PassOn(d), sets, mats, c, map[d := [l]], Parts(d, k, l))
            && !GivenAsRecorded(reg, c, map[d := [k, l]], map[d := [l]], Parts(d, k, l))
  {
    var sets, mats, history := map[d := [l]], RacedMats(d, r, k, l), RacedHistory(d, r, k, l);
    RacedFresh(reg, d, r, k, l);
    RacedClean(reg, d, r, k, l);
    RacedRecorded(d, r, k, l);
    RacedHanded(d, r, k, l);
    RacedGivenBy(reg, d, r, k, l);
    assert SetsFor(reg, sets);
    CleanNotRecorded(reg, PassOn(d), history, sets, mats, Cell(r, None), map[d := [k, l]], map[d := [l]],
                     Parts(d, k, l));
  }

  lemma RacedGivenBy(reg: Registry, d: Name, r: Name, k: Key, l: Key)
    requires RollsUp(reg, d, r) && k != l
    ensures GivenBy(reg, PassOn(d), RacedHistory(d, r, k, l), map[d := [l]], RacedMats(d, r, k, l), Cell(r, None),
                    map[d := [k, l]],
                    map[d := [l]], Parts(d, k, l))
  {
    RacedRecorded(d, r, k, l);
    RacedExplained(reg, d, r, k, l, RacedHistory(d, r, k, l));
    SameDomain(d, [k, l], [l]);
    RacedRow(d, r, k, l);
    RowGivenBy(reg, PassOn(d), RacedHistory(d, r, k, l), map[d := [l]], RacedMats(d, r, k, l), Cell(r, None),
               map[d := [k, l]],
               map[d := [l]], Parts(d, k, l), RollupRow(d, k, l));
  }

  lemma SameDomain(d: Name, a: seq<Key>, b: seq<Key>)
    ensures map[d := a].Keys == map[d := b].Keys
  {
    assert map[d := a].Keys == {d} && map[d := b].Keys == {d};
  }

  lemma RacedRow(d: Name, r: Name, k: Key, l: Key)
    ensures Cell(r, None) in RacedMats(d, r, k, l) && RacedMats(d, r, k, l)[Cell(r, None)] == RollupRow(d, k, l)
  {
  }

  lemma RowGivenBy(reg: Registry, world: World, history: History, sets: Sets, mats: Mats, c: Cell, noted: Sets,
                   handed: Sets, snap: Mats, row: Mat)
    requires c in mats && mats[c] == row && noted.Keys == handed.Keys == sets.Keys
    requires ExplainedBy(reg, world, history, noted, handed, snap, c, row)
    ensures GivenBy(reg, world, history, sets, mats, c, noted, handed, snap)
  {
  }

  lemma CleanNotRecorded(reg: Registry, world: World, history: History, sets: Sets, mats: Mats, c: Cell, noted: Sets,
                         handed: Sets, snap: Mats)
    requires reg.Valid() && SetsFor(reg, sets) && c.asset in reg.byName && !reg.IsSource(c.asset)
    requires AllRecorded(history, mats) && Faithful(history) && Fresh(reg, sets, mats, c)
    requires GivenBy(reg, world, history, sets, mats, c, noted, handed, snap)
    requires CleanUpstream(reg, sets, mats, CleanBuild(reg, sets, world, mats), c)
    requires SameHanded(handed, sets, reg.OpFor(c.asset), c.key, snap)
    requires !SameHanded(noted, handed, reg.OpFor(c.asset), c.key, snap)
    ensures GivenAsClean(reg, world, sets, mats, c, handed, snap) && !GivenAsRecorded(reg, c, noted, handed, snap)
  {
    GivenCleanIff(reg, world, history, sets, mats, c, noted, handed, snap);
  }
}
