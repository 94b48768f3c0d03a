/**
 * Running a set of op instances (src/asset.rs): each captures once the instances
 * it depends on have finished and commits some time later, in any interleaving,
 * recording whatever fingerprints it comes out with.
 */
module Execution {
  import opened Prelude
  import opened Assets
  import opened Freshness
  import opened Builds

  /** One instance of a planned op: at a key for a partitioned op, at none otherwise. */
  datatype Inst = Inst(op: Name, key: Option<Key>)

  /** The rows, what each open instance captured, and the instances that have committed. */
  datatype Exec = Exec(mats: Mats, open: map<Inst, map<Name, Value>>, done: set<Inst>)

  ghost predicate WaitsFor(reg: Registry, i: Inst, j: Inst)
    requires reg.OpsIndexed()
  {
    i.op in reg.byOp && j.op in reg.byOp && exists d :: d in reg.Op(i.op).deps && d in reg.Op(j.op).produces
  }

  /** What an instance would record if it captured now. */
  ghost function Now(reg: Registry, sets: Sets, mats: Mats, i: Inst): map<Name, Value>
    requires reg.OpsIndexed() && i.op in reg.byOp
  {
    RecordedInputs(sets, reg.Op(i.op), i.key, mats)
  }

  ghost predicate InstCell(reg: Registry, i: Inst, c: Cell)
    requires reg.OpsIndexed()
  {
    i.op in reg.byOp && c in OpCells(reg.Op(i.op), i.key)
  }

  ghost predicate Written(reg: Registry, insts: set<Inst>, c: Cell)
    requires reg.OpsIndexed()
  {
    exists i :: i in insts && InstCell(reg, i, c)
  }

  ghost predicate OpenStep(reg: Registry, sets: Sets, insts: set<Inst>, s: Exec, t: Exec, i: Inst)
    requires reg.OpsIndexed()
  {
    && i in insts && i.op in reg.byOp && i !in s.open && i !in s.done
    && (forall j :: j in insts && WaitsFor(reg, i, j) ==> j in s.done)
    && t == s.(open := s.open[i := RecordedInputs(sets, reg.Op(i.op), i.key,
                                                  Snapshot(sets, reg.Op(i.op), i.key, s.mats))])
  }

  ghost predicate CloseStep(reg: Registry, s: Exec, t: Exec, i: Inst, rows: Mats)
    requires reg.OpsIndexed()
  {
    && i in s.open && i.op in reg.byOp
    && rows.Keys == OpCells(reg.Op(i.op), i.key)
    && (forall c :: c in rows ==> rows[c].inputs == s.open[i])
    && t == Exec(s.mats + rows, s.open - {i}, s.done + {i})
  }

  ghost predicate Step(reg: Registry, sets: Sets, insts: set<Inst>, s: Exec, t: Exec)
    requires reg.OpsIndexed()
  {
    (exists i :: OpenStep(reg, sets, insts, s, t, i)) || exists i, rows :: CloseStep(reg, s, t, i, rows)
  }

  ghost predicate Runs(reg: Registry, sets: Sets, insts: set<Inst>, start: Mats, trace: seq<Exec>)
    requires reg.OpsIndexed()
  {
    && trace != [] && trace[0] == Exec(start, map[], {})
    && forall k :: 0 <= k < |trace| - 1 ==> Step(reg, sets, insts, trace[k], trace[k + 1])
  }

  // ----------------------------------------------------------- what every step keeps

  ghost predicate Ordered(reg: Registry, insts: set<Inst>, s: Exec)
    requires reg.OpsIndexed()
  {
    && s.open.Keys <= insts && s.done <= insts && s.open.Keys !! s.done
    && (forall i :: i in insts ==> i.op in reg.byOp)
    && forall i, j :: (i in s.open || i in s.done) && j in insts && WaitsFor(reg, i, j) ==> j in s.done
  }

  ghost predicate Current(reg: Registry, sets: Sets, s: Exec)
    requires reg.OpsIndexed() && forall i :: i in s.open || i in s.done ==> i.op in reg.byOp
  {
    && (forall i :: i in s.open ==> s.open[i] == Now(reg, sets, s.mats, i))
    && forall i, c :: i in s.done && InstCell(reg, i, c) ==>
         c in s.mats && s.mats[c].inputs == Now(reg, sets, s.mats, i)
  }

  ghost predicate Untouched(reg: Registry, start: Mats, s: Exec)
    requires reg.OpsIndexed()
  {
    forall c :: !Written(reg, s.done, c) ==> (c in start <==> c in s.mats) && (c in start ==> start[c] == s.mats[c])
  }

  ghost predicate Keeps(reg: Registry, sets: Sets, insts: set<Inst>, start: Mats, s: Exec)
    requires reg.OpsIndexed()
  {
    Ordered(reg, insts, s) && Current(reg, sets, s) && Untouched(reg, start, s)
  }

  /** A snapshot shows the fingerprints the store shows, at every key an instance records. */
  lemma SnapshotRecordsNow(sets: Sets, op: OpMeta, key: Option<Key>, mats: Mats)
    ensures RecordedInputs(sets, op, key, Snapshot(sets, op, key, mats)) == RecordedInputs(sets, op, key, mats)
  {
    var snap := Snapshot(sets, op, key, mats);
    forall dep | dep in op.deps ensures Recorded(sets, op, key, snap, dep) == Recorded(sets, op, key, mats, dep) {
      SnapshotRecordsDep(sets, op, key, mats, dep);
    }
    SameRecorded(sets, op, key, snap, mats);
  }

  lemma SameRecorded(sets: Sets, op: OpMeta, key: Option<Key>, a: Mats, b: Mats)
    requires forall dep :: dep in op.deps ==> Recorded(sets, op, key, a, dep) == Recorded(sets, op, key, b, dep)
    ensures RecordedInputs(sets, op, key, a) == RecordedInputs(sets, op, key, b)
  {
  }

  lemma SnapshotRecordsDep(sets: Sets, op: OpMeta, key: Option<Key>, mats: Mats, dep: Name)
    requires dep in op.deps
    ensures Recorded(sets, op, key, Snapshot(sets, op, key, mats), dep) == Recorded(sets, op, key, mats, dep)
  {
    var snap := Snapshot(sets, op, key, mats);
    if dep !in sets {
      assert PrintOf(snap, Cell(dep, None)) == PrintOf(mats, Cell(dep, None));
    } else {
      var keys := ReadKeys(sets, op.maps, dep, key);
      forall k | k in keys ensures PrintOf(snap, Cell(dep, Some(k))) == PrintOf(mats, Cell(dep, Some(k))) {
        assert Captures(sets, op, key, Cell(dep, Some(k)));
      }
      SameByKey(snap, mats, dep, keys);
    }
  }

  lemma SameByKey(a: Mats, b: Mats, dep: Name, keys: seq<Key>)
    requires forall k :: k in keys ==> PrintOf(a, Cell(dep, Some(k))) == PrintOf(b, Cell(dep, Some(k)))
    ensures (map k | k in keys :: FpValue(PrintOf(a, Cell(dep, Some(k)))))
         == (map k | k in keys :: FpValue(PrintOf(b, Cell(dep, Some(k)))))
    ensures keys != [] ==> PrintOf(a, Cell(dep, Some(keys[0]))) == PrintOf(b, Cell(dep, Some(keys[0])))
  {
    if keys != [] {
      assert keys[0] in keys;
    }
  }

  /** Rows of assets an op does not read do not change what it would record. */
  lemma NowUnmoved(sets: Sets, op: OpMeta, key: Option<Key>, mats: Mats, rows: Mats)
    requires forall c :: c in rows ==> c.asset !in op.deps
    ensures RecordedInputs(sets, op, key, mats + rows) == RecordedInputs(sets, op, key, mats)
  {
    forall dep | dep in op.deps
      ensures Recorded(sets, op, key, mats + rows, dep) == Recorded(sets, op, key, mats, dep)
    {
      forall c: Cell | c.asset == dep ensures PrintOf(mats + rows, c) == PrintOf(mats, c) {
      }
      if dep in sets {
        SameByKey(mats + rows, mats, dep, ReadKeys(sets, op.maps, dep, key));
      }
    }
    SameRecorded(sets, op, key, mats + rows, mats);
  }

  lemma OpenKeepsCurrent(reg: Registry, sets: Sets, insts: set<Inst>, s: Exec, t: Exec, i: Inst)
    requires reg.OpsIndexed() && Ordered(reg, insts, s) && Current(reg, sets, s) && OpenStep(reg, sets, insts, s, t, i)
    ensures Ordered(reg, insts, t) && Current(reg, sets, t)
  {
    SnapshotRecordsNow(sets, reg.Op(i.op), i.key, s.mats);
  }

  lemma OpenKeeps(reg: Registry, sets: Sets, insts: set<Inst>, start: Mats, s: Exec, t: Exec, i: Inst)
    requires reg.OpsIndexed() && Keeps(reg, sets, insts, start, s) && OpenStep(reg, sets, insts, s, t, i)
    ensures Keeps(reg, sets, insts, start, t)
  {
    OpenKeepsCurrent(reg, sets, insts, s, t, i);
  }

  lemma NotReadBy(reg: Registry, insts: set<Inst>, s: Exec, i: Inst, other: Inst, rows: Mats)
    requires reg.OpsIndexed() && Ordered(reg, insts, s) && i in s.open && (other in s.open || other in s.done)
    requires rows.Keys == OpCells(reg.Op(i.op), i.key)
    ensures forall c :: c in rows ==> c.asset !in reg.Op(other.op).deps
  {
    forall c | c in rows ensures c.asset !in reg.Op(other.op).deps {
      if c.asset in reg.Op(other.op).deps {
        assert WaitsFor(reg, other, i);
      }
    }
  }

  lemma CloseKeepsCurrent(reg: Registry, sets: Sets, insts: set<Inst>, s: Exec, t: Exec, i: Inst, rows: Mats)
    requires reg.OpsIndexed() && Ordered(reg, insts, s) && Current(reg, sets, s) && CloseStep(reg, s, t, i, rows)
    requires OneWriter(reg, insts)
    ensures Ordered(reg, insts, t) && Current(reg, sets, t)
  {
    forall j | j in s.open || j in s.done ensures Now(reg, sets, t.mats, j) == Now(reg, sets, s.mats, j) {
      NotReadBy(reg, insts, s, i, j, rows);
      NowUnmoved(sets, reg.Op(j.op), j.key, s.mats, rows);
    }
    forall j, c | j in t.done && InstCell(reg, j, c)
      ensures c in t.mats && t.mats[c].inputs == Now(reg, sets, t.mats, j)
    {
      if j != i {
        assert InstCell(reg, i, c) ==> i == j;
        assert c !in rows;
      }
    }
  }

  /** No two instances write one cell. */
  ghost predicate OneWriter(reg: Registry, insts: set<Inst>)
    requires reg.OpsIndexed()
  {
    forall i, j, c :: i in insts && j in insts && InstCell(reg, i, c) && InstCell(reg, j, c) ==> i == j
  }

  /** Each asset has one op, so no two instances of any set write one cell. */
  lemma RegistryHasOneWriter(reg: Registry, insts: set<Inst>)
    requires reg.Valid()
    ensures OneWriter(reg, insts)
  {
    forall i, j, c | i in insts && j in insts && InstCell(reg, i, c) && InstCell(reg, j, c) ensures i == j {
      assert reg.ValidOp(reg.Op(i.op)) && reg.ValidOp(reg.Op(j.op));
      assert Makes(reg.Op(i.op), reg.Meta(c.asset)) && Makes(reg.Op(j.op), reg.Meta(c.asset));
      assert i.key == c.key && j.key == c.key;
    }
  }

  lemma CloseKeepsUntouched(reg: Registry, start: Mats, s: Exec, t: Exec, i: Inst, rows: Mats)
    requires reg.OpsIndexed() && Untouched(reg, start, s) && CloseStep(reg, s, t, i, rows)
    ensures Untouched(reg, start, t)
  {
    forall c | !Written(reg, t.done, c)
      ensures (c in start <==> c in t.mats) && (c in start ==> start[c] == t.mats[c])
    {
      forall j | j in s.done ensures !InstCell(reg, j, c) {
        assert j in t.done;
      }
      assert i in t.done && !InstCell(reg, i, c);
    }
  }

  lemma {:induction false} KeptThroughout(reg: Registry, sets: Sets, insts: set<Inst>, start: Mats, trace: seq<Exec>,
                                          k: nat)
    requires reg.Valid() && Runs(reg, sets, insts, start, trace) && k < |trace|
    requires forall i :: i in insts ==> i.op in reg.byOp
    ensures Keeps(reg, sets, insts, start, trace[k])
  {
    if k > 0 {
      KeptThroughout(reg, sets, insts, start, trace, k - 1);
      RegistryHasOneWriter(reg, insts);
      var s, t := trace[k - 1], trace[k];
      assert Step(reg, sets, insts, trace[k - 1], trace[k - 1 + 1]);
      if i :| OpenStep(reg, sets, insts, s, t, i) {
        OpenKeeps(reg, sets, insts, start, s, t, i);
      } else {
        var i, rows :| CloseStep(reg, s, t, i, rows);
        CloseKeepsCurrent(reg, sets, insts, s, t, i, rows);
        CloseKeepsUntouched(reg, start, s, t, i, rows);
      }
    }
  }

  // ----------------------------------------------------------- progress

  lemma WaitsForEarlier(reg: Registry, i: Inst, j: Inst)
    requires reg.Valid() && WaitsFor(reg, i, j)
    ensures reg.byOp[j.op] < reg.byOp[i.op]
  {
    var d :| d in reg.Op(i.op).deps && d in reg.Op(j.op).produces;
    assert reg.ValidOp(reg.Op(j.op)) && Makes(reg.Op(j.op), reg.Meta(d));
    ProducerComesFirst(reg, reg.Op(i.op), d);
  }

  lemma EarliestInst(reg: Registry, left: set<Inst>) returns (i: Inst)
    requires reg.OpsIndexed() && left != {} && forall j :: j in left ==> j.op in reg.byOp
    ensures i in left && forall j :: j in left ==> reg.byOp[i.op] <= reg.byOp[j.op]
  {
    i :| i in left;
    var rest := left - {i};
    while rest != {}
      invariant i in left && rest <= left
      invariant forall j :: j in left && j !in rest ==> reg.byOp[i.op] <= reg.byOp[j.op]
    {
      var j :| j in rest;
      if reg.byOp[j.op] < reg.byOp[i.op] {
        i := j;
      }
      rest := rest - {j};
    }
  }

  lemma EarliestCanOpen(reg: Registry, sets: Sets, insts: set<Inst>, s: Exec)
    requires reg.Valid() && Ordered(reg, insts, s) && s.done != insts && s.open == map[]
    ensures exists t, i :: OpenStep(reg, sets, insts, s, t, i)
  {
    var left :| left in insts && left !in s.done;
    assert left in insts - s.done;
    var i := EarliestInst(reg, insts - s.done);
    forall j | j in insts && WaitsFor(reg, i, j) ensures j in s.done {
      WaitsForEarlier(reg, i, j);
    }
    var o := reg.Op(i.op);
    var t := s.(open := s.open[i := RecordedInputs(sets, o, i.key, Snapshot(sets, o, i.key, s.mats))]);
    assert OpenStep(reg, sets, insts, s, t, i);
  }

  lemma OpenCanClose(reg: Registry, s: Exec, i: Inst)
    requires reg.OpsIndexed() && i in s.open && i.op in reg.byOp
    ensures exists t, rows :: CloseStep(reg, s, t, i, rows)
  {
    var rows := map c | c in OpCells(reg.Op(i.op), i.key) :: Mat("", s.open[i], Null, None);
    var t := Exec(s.mats + rows, s.open - {i}, s.done + {i});
    assert CloseStep(reg, s, t, i, rows);
  }

  /** A run that is not over can always take a step: instances never wait on one another in a circle. */
  lemma NeverStuck(reg: Registry, sets: Sets, insts: set<Inst>, s: Exec)
    requires reg.Valid() && Ordered(reg, insts, s) && s.done != insts
    ensures exists t :: Step(reg, sets, insts, s, t)
  {
    if i :| i in s.open {
      OpenCanClose(reg, s, i);
      var t, rows :| CloseStep(reg, s, t, i, rows);
      assert Step(reg, sets, insts, s, t);
    } else {
      assert s.open == map[];
      EarliestCanOpen(reg, sets, insts, s);
      var t, i :| OpenStep(reg, sets, insts, s, t, i);
      assert Step(reg, sets, insts, s, t);
    }
  }

  // Each instance captures once and commits once.
  ghost function Left(insts: set<Inst>, s: Exec): int {
    2 * |insts - s.done| - |s.open.Keys|
  }

  ghost predicate Within(insts: set<Inst>, s: Exec) {
    s.open.Keys <= insts && s.done <= insts && s.open.Keys !! s.done
  }

  lemma OneMore<T>(open: set<T>, all: set<T>, x: T)
    requires open <= all && x in all && x !in open
    ensures |open + {x}| == |open| + 1 <= |all|
  {
    SubsetSize(open + {x}, all);
  }

  lemma OpenSpends(insts: set<Inst>, s: Exec, t: Exec, i: Inst, recorded: map<Name, Value>)
    requires Within(insts, s) && i in insts && i !in s.open && i !in s.done
    requires t.open == s.open[i := recorded] && t.done == s.done
    ensures Left(insts, t) == Left(insts, s) - 1 && Left(insts, s) > 0
  {
    assert t.open.Keys == s.open.Keys + {i};
    OneMore(s.open.Keys, insts - s.done, i);
  }

  lemma CloseSpends(insts: set<Inst>, s: Exec, t: Exec, i: Inst)
    requires Within(insts, s) && i in s.open && t.open == s.open - {i} && t.done == s.done + {i}
    ensures Left(insts, t) == Left(insts, s) - 1 && Left(insts, s) > 0
  {
    assert t.open.Keys == s.open.Keys - {i};
    assert insts - t.done == (insts - s.done) - {i};
    SubsetSize(s.open.Keys, insts - s.done);
  }

  /** Every step leaves one thing less to do, so no run goes on for ever. */
  lemma StepsRunOut(reg: Registry, sets: Sets, insts: set<Inst>, s: Exec, t: Exec)
    requires reg.OpsIndexed() && Within(insts, s) && Step(reg, sets, insts, s, t)
    ensures Left(insts, t) == Left(insts, s) - 1 && Left(insts, s) > 0
  {
    if i :| OpenStep(reg, sets, insts, s, t, i) {
      OpenSpends(insts, s, t, i, t.open[i]);
    } else {
      var i, rows :| CloseStep(reg, s, t, i, rows);
      CloseSpends(insts, s, t, i);
    }
  }

  // ----------------------------------------------------------- after the last commit

  ghost predicate Ends(trace: seq<Exec>, insts: set<Inst>, end: Mats) {
    trace != [] && trace[|trace| - 1].done == insts && trace[|trace| - 1].mats == end
  }

  /** A run that has committed every instance. */
  ghost predicate Completes(reg: Registry, sets: Sets, insts: set<Inst>, start: Mats, end: Mats)
    requires reg.OpsIndexed()
  {
    && (forall i :: i in insts ==> i.op in reg.byOp)
    && exists trace :: Runs(reg, sets, insts, start, trace) && Ends(trace, insts, end)
  }

  /** What any complete run leaves: written rows recorded the final fingerprints, and nothing else moved. */
  lemma CompleteRun(reg: Registry, sets: Sets, insts: set<Inst>, start: Mats, end: Mats)
    requires reg.Valid() && Completes(reg, sets, insts, start, end)
    ensures forall i, c :: i in insts && InstCell(reg, i, c) ==> c in end && end[c].inputs == Now(reg, sets, end, i)
    ensures forall c :: !Written(reg, insts, c) ==> (c in start <==> c in end) && (c in start ==> start[c] == end[c])
  {
    var trace :| Runs(reg, sets, insts, start, trace) && Ends(trace, insts, end);
    KeptThroughout(reg, sets, insts, start, trace, |trace| - 1);
  }

  /** A read that a build of `c` could make and a verdict on `c` could accept. */
  ghost predicate Readable(sets: Sets, maps: map<Name, Mapping>, d: Cell) {
    && (d.key.Some? ==> d.asset in sets && d.key.value in sets[d.asset])
    && !(Mapped(sets, maps, d.asset) && MappingOf(maps, d.asset).Offset?)
  }

  /** A row that recorded the current fingerprints has a good edge exactly where a read is readable and materialized. */
  lemma RecordedEdge(sets: Sets, op: OpMeta, key: Option<Key>, mats: Mats, row: Mat, d: Cell)
    requires d.asset in op.deps && d.key in Consulted(sets, op.maps, d.asset, key)
    requires row.inputs == RecordedInputs(sets, op, key, mats)
    requires d.key.Some? <==> d.asset in sets
    requires d.key.Some? ==> d.key.value in sets[d.asset]
    requires d in mats
    ensures Had(sets, op.maps, row, d.asset, d.key) == PrintOf(mats, d) <==> Readable(sets, op.maps, d)
  {
    var dep := d.asset;
    assert row.inputs[dep] == Recorded(sets, op, key, mats, dep);
    if Mapped(sets, op.maps, dep) && !MappingOf(op.maps, dep).Offset? {
      var r := Resolve(MappingOf(op.maps, dep), key, sets[dep]);
      MappedWithin(MappingOf(op.maps, dep), key, sets[dep]);
      var all := r.keys + r.missing;
      var i :| 0 <= i < |Somes(all)| && Somes(all)[i] == d.key;
      assert all[i] == d.key.value && all[i] in all;
      assert d.key.value in ReadKeys(sets, op.maps, dep, key);
    }
  }

  ghost predicate Region(reg: Registry, sets: Sets, region: iset<Cell>)
    requires reg.Valid()
  {
    && SetsFor(reg, sets)
    && (forall c :: c in region ==> WellKeyed(reg, sets, c))
    && forall c, d :: c in region && ReadsCell(reg, sets, c, d) ==> d in region
  }

  /** Every written cell of a region is one a verdict can come to accept. */
  ghost predicate WritesReadable(reg: Registry, sets: Sets, insts: set<Inst>, region: iset<Cell>)
    requires reg.Valid()
  {
    forall c, d :: c in region && c.asset in reg.byName && Written(reg, insts, c) && ReadsCell(reg, sets, c, d) ==>
      Readable(sets, reg.Meta(c.asset).maps, d)
  }

  /** No cell the run left alone reads a written cell whose fingerprint moved. */
  ghost predicate NothingMovedUnder(reg: Registry, sets: Sets, insts: set<Inst>, start: Mats, end: Mats,
                                    region: iset<Cell>)
    requires reg.Valid()
  {
    forall c, d :: c in region && c.asset in reg.byName && ReadsCell(reg, sets, c, d) ==>
      (!Written(reg, insts, c) && Written(reg, insts, d) ==> PrintOf(end, d) == PrintOf(start, d))
  }

  ghost predicate AllFresh(reg: Registry, sets: Sets, mats: Mats, region: iset<Cell>)
    requires reg.Valid()
  {
    forall c :: c in region ==> c.asset in reg.byName && Fresh(reg, sets, mats, c)
  }

  lemma WrittenEdges(reg: Registry, sets: Sets, insts: set<Inst>, start: Mats, end: Mats, c: Cell, d: Cell)
    requires reg.Valid() && Completes(reg, sets, insts, start, end) && c.asset in reg.byName
    requires Written(reg, insts, c) && ReadsCell(reg, sets, c, d) && d in end && WellKeyed(reg, sets, d)
    ensures c in end && (EdgeHolds(reg, sets, end, c, d) <==> Readable(sets, reg.Meta(c.asset).maps, d))
  {
    CompleteRun(reg, sets, insts, start, end);
    var i :| i in insts && InstCell(reg, i, c);
    var op := reg.Op(i.op);
    assert reg.ValidOp(op) && Makes(op, reg.Meta(c.asset)) && i.key == c.key;
    if d.key.Some? ==> d.asset in sets && d.key.value in sets[d.asset] {
      RecordedEdge(sets, op, c.key, end, end[c], d);
    }
  }

  lemma LeftAloneEdges(reg: Registry, sets: Sets, insts: set<Inst>, start: Mats, end: Mats, c: Cell, d: Cell)
    requires reg.Valid() && Completes(reg, sets, insts, start, end) && c.asset in reg.byName
    requires !Written(reg, insts, c) && Fresh(reg, sets, start, c) && ReadsCell(reg, sets, c, d)
    ensures c in end && (EdgeHolds(reg, sets, end, c, d) <==> PrintOf(end, d) == PrintOf(start, d))
  {
    CompleteRun(reg, sets, insts, start, end);
    assert EdgeHolds(reg, sets, start, c, d);
  }

  lemma {:induction false} CellConverges(reg: Registry, sets: Sets, insts: set<Inst>, start: Mats, end: Mats,
                                         region: iset<Cell>, c: Cell)
    requires reg.Valid() && Completes(reg, sets, insts, start, end) && Region(reg, sets, region) && c in region
    requires forall e :: e in region && !Written(reg, insts, e) ==> Fresh(reg, sets, start, e)
    requires WritesReadable(reg, sets, insts, region) && NothingMovedUnder(reg, sets, insts, start, end, region)
    ensures Fresh(reg, sets, end, c)
    decreases reg.byName[c.asset]
  {
    CompleteRun(reg, sets, insts, start, end);
    forall d | ReadsCell(reg, sets, c, d)
      ensures d.asset in reg.byName && c in end && EdgeHolds(reg, sets, end, c, d) && Fresh(reg, sets, end, d)
    {
      ReadsRank(reg, sets, c, d);
      CellConverges(reg, sets, insts, start, end, region, d);
      if Written(reg, insts, c) {
        WrittenEdges(reg, sets, insts, start, end, c, d);
      } else {
        LeftAloneEdges(reg, sets, insts, start, end, c, d);
        assert Written(reg, insts, d) || PrintOf(end, d) == PrintOf(start, d);
      }
    }
    assert c in end;
  }

  /**
   * When a run leaves a whole region fresh: given that what it did not write was
   * fresh to begin with, exactly when everything it wrote is readable and no
   * cell it left alone reads a written cell whose fingerprint moved.
   */
  lemma ConvergesIff(reg: Registry, sets: Sets, insts: set<Inst>, start: Mats, end: Mats, region: iset<Cell>)
    requires reg.Valid() && Completes(reg, sets, insts, start, end) && Region(reg, sets, region)
    requires forall c :: c in region && !Written(reg, insts, c) ==> Fresh(reg, sets, start, c)
    ensures AllFresh(reg, sets, end, region) <==>
            WritesReadable(reg, sets, insts, region) && NothingMovedUnder(reg, sets, insts, start, end, region)
  {
    if WritesReadable(reg, sets, insts, region) && NothingMovedUnder(reg, sets, insts, start, end, region) {
      forall c | c in region ensures Fresh(reg, sets, end, c) {
        CellConverges(reg, sets, insts, start, end, region, c);
      }
    }
    if AllFresh(reg, sets, end, region) {
      forall c, d | c in region && ReadsCell(reg, sets, c, d)
        ensures Written(reg, insts, c) ==> Readable(sets, reg.Meta(c.asset).maps, d)
        ensures !Written(reg, insts, c) ==> PrintOf(end, d) == PrintOf(start, d)
      {
        assert EdgeHolds(reg, sets, end, c, d);
        if Written(reg, insts, c) {
          WrittenEdges(reg, sets, insts, start, end, c, d);
        } else {
          LeftAloneEdges(reg, sets, insts, start, end, c, d);
        }
      }
    }
  }

  // ----------------------------------------------------------- every run at once

  ghost predicate Ready(reg: Registry, insts: set<Inst>, s: Exec, i: Inst)
    requires reg.OpsIndexed()
  {
    && i in insts && i.op in reg.byOp && i !in s.open && i !in s.done
    && forall j :: j in insts && WaitsFor(reg, i, j) ==> j in s.done
  }

  ghost function Stamp(reg: Registry, i: Inst, inputs: map<Name, Value>, fp: Print): Mats
    requires reg.OpsIndexed() && i.op in reg.byOp
  {
    map c | c in OpCells(reg.Op(i.op), i.key) :: Mat(fp, inputs, Null, None)
  }

  lemma RunOne(reg: Registry, sets: Sets, insts: set<Inst>, s: Exec, i: Inst, fp: Print) returns (m: Exec, t: Exec)
    requires reg.OpsIndexed() && Ready(reg, insts, s, i) && s.open == map[]
    ensures Step(reg, sets, insts, s, m) && Step(reg, sets, insts, m, t)
    ensures i in m.open && t == Exec(s.mats + Stamp(reg, i, m.open[i], fp), map[], s.done + {i})
  {
    var o := reg.Op(i.op);
    var recorded := RecordedInputs(sets, o, i.key, Snapshot(sets, o, i.key, s.mats));
    m := s.(open := s.open[i := recorded]);
    assert OpenStep(reg, sets, insts, s, m, i);
    var rows := Stamp(reg, i, recorded, fp);
    t := Exec(s.mats + rows, m.open - {i}, s.done + {i});
    assert CloseStep(reg, m, t, i, rows);
    assert m.open - {i} == map[];
  }

  ghost predicate Stamped(reg: Registry, s: Exec, fp: Print)
    requires reg.OpsIndexed()
  {
    s.open == map[] && forall c :: Written(reg, s.done, c) ==> c in s.mats && s.mats[c].fp == fp
  }

  lemma StampedOn(reg: Registry, s: Exec, i: Inst, inputs: map<Name, Value>, fp: Print)
    requires reg.OpsIndexed() && i.op in reg.byOp && Stamped(reg, s, fp)
    ensures Stamped(reg, Exec(s.mats + Stamp(reg, i, inputs, fp), map[], s.done + {i}), fp)
  {
    var t := Exec(s.mats + Stamp(reg, i, inputs, fp), map[], s.done + {i});
    forall c | Written(reg, t.done, c) ensures c in t.mats && t.mats[c].fp == fp {
      if !InstCell(reg, i, c) {
        assert Written(reg, s.done, c);
      }
    }
  }

  lemma NextReady(reg: Registry, insts: set<Inst>, s: Exec) returns (i: Inst)
    requires reg.Valid() && (forall i :: i in insts ==> i.op in reg.byOp)
    requires s.open == map[] && s.done <= insts && s.done != insts
    ensures Ready(reg, insts, s, i)
  {
    var left :| left in insts && left !in s.done;
    assert left in insts - s.done;
    i := EarliestInst(reg, insts - s.done);
    forall j | j in insts && WaitsFor(reg, i, j) ensures j in s.done {
      WaitsForEarlier(reg, i, j);
    }
  }

  lemma RunsOn(reg: Registry, sets: Sets, insts: set<Inst>, start: Mats, trace: seq<Exec>, m: Exec, t: Exec)
    requires reg.OpsIndexed() && Runs(reg, sets, insts, start, trace)
    requires Step(reg, sets, insts, trace[|trace| - 1], m) && Step(reg, sets, insts, m, t)
    ensures Runs(reg, sets, insts, start, trace + [m, t])
  {
    var longer := trace + [m, t];
    forall k | 0 <= k < |longer| - 1 ensures Step(reg, sets, insts, longer[k], longer[k + 1]) {
      if k < |trace| - 1 {
        assert Step(reg, sets, insts, trace[k], trace[k + 1]);
      }
    }
  }

  lemma {:induction false} RunOut(reg: Registry, sets: Sets, insts: set<Inst>, start: Mats, trace: seq<Exec>, fp: Print)
    returns (end: Mats)
    requires reg.Valid() && (forall i :: i in insts ==> i.op in reg.byOp)
    requires Runs(reg, sets, insts, start, trace)
    requires Stamped(reg, trace[|trace| - 1], fp) && trace[|trace| - 1].done <= insts
    ensures Completes(reg, sets, insts, start, end)
    ensures forall c :: Written(reg, insts, c) ==> c in end && end[c].fp == fp
    decreases insts - trace[|trace| - 1].done
  {
    var s := trace[|trace| - 1];
    if s.done == insts {
      end := s.mats;
      assert Runs(reg, sets, insts, start, trace) && Ends(trace, insts, end);
    } else {
      var i := NextReady(reg, insts, s);
      var m, t := RunOne(reg, sets, insts, s, i, fp);
      StampedOn(reg, s, i, m.open[i], fp);
      RunsOn(reg, sets, insts, start, trace, m, t);
      end := RunOut(reg, sets, insts, start, trace + [m, t], fp);
    }
  }

  /**
   * Any set of instances can be run to its end, and every row it writes can come
   * out with a fingerprint given beforehand.
   */
  lemma RunToEnd(reg: Registry, sets: Sets, insts: set<Inst>, start: Mats, fp: Print) returns (end: Mats)
    requires reg.Valid() && (forall i :: i in insts ==> i.op in reg.byOp)
    ensures Completes(reg, sets, insts, start, end)
    ensures forall c :: Written(reg, insts, c) ==> c in end && end[c].fp == fp
  {
    var s := Exec(start, map[], {});
    assert Runs(reg, sets, insts, start, [s]);
    end := RunOut(reg, sets, insts, start, [s], fp);
  }

  /** A cell a run leaves alone while writing what it reads is stale after some run, whatever it had recorded. */
  lemma LeftAloneCanGoStale(reg: Registry, sets: Sets, insts: set<Inst>, start: Mats, c: Cell,
                            d: Cell) returns (end: Mats)
    requires reg.Valid() && (forall i :: i in insts ==> i.op in reg.byOp) && c.asset in reg.byName
    requires !Written(reg, insts, c) && ReadsCell(reg, sets, c, d) && Written(reg, insts, d)
    ensures Completes(reg, sets, insts, start, end) && !Fresh(reg, sets, end, c)
  {
    var other := RunToEnd(reg, sets, insts, start, "1");
    end := RunToEnd(reg, sets, insts, start, "22");
    CompleteRun(reg, sets, insts, start, end);
    CompleteRun(reg, sets, insts, start, other);
    assert PrintOf(other, d) != PrintOf(end, d);
    if Fresh(reg, sets, end, c) {
      assert EdgeHolds(reg, sets, end, c, d);
      assert !EdgeHolds(reg, sets, other, c, d);
      end := other;
    }
  }

  /** Every cell of the region the run leaves alone is fresh before it. */
  ghost predicate LeftAloneFresh(reg: Registry, sets: Sets, insts: set<Inst>, start: Mats, region: iset<Cell>)
    requires reg.Valid()
  {
    forall c :: c in region && !Written(reg, insts, c) ==> c.asset in reg.byName && Fresh(reg, sets, start, c)
  }

  /** Whatever in the region reads a written cell is written too. */
  ghost predicate ReadersWritten(reg: Registry, sets: Sets, insts: set<Inst>, region: iset<Cell>)
    requires reg.Valid()
  {
    forall c, d :: c in region && c.asset in reg.byName && ReadsCell(reg, sets, c, d) && Written(reg, insts, d) ==>
      Written(reg, insts, c)
  }

  lemma {:induction false} WasFresh(reg: Registry, sets: Sets, insts: set<Inst>, start: Mats, end: Mats,
                                    region: iset<Cell>, c: Cell)
    requires reg.Valid() && Completes(reg, sets, insts, start, end) && Region(reg, sets, region) && c in region
    requires AllFresh(reg, sets, end, region) && ReadersWritten(reg, sets, insts, region) && !Written(reg, insts, c)
    ensures Fresh(reg, sets, start, c)
    decreases reg.byName[c.asset]
  {
    CompleteRun(reg, sets, insts, start, end);
    assert Fresh(reg, sets, end, c);
    forall d | ReadsCell(reg, sets, c, d)
      ensures d.asset in reg.byName && EdgeHolds(reg, sets, start, c, d) && Fresh(reg, sets, start, d)
    {
      ReadsRank(reg, sets, c, d);
      assert EdgeHolds(reg, sets, end, c, d) && !Written(reg, insts, d);
      WasFresh(reg, sets, insts, start, end, region, d);
    }
  }

  lemma NothingMoves(reg: Registry, sets: Sets, insts: set<Inst>, start: Mats, end: Mats, region: iset<Cell>)
    requires reg.Valid() && Region(reg, sets, region) && ReadersWritten(reg, sets, insts, region)
    ensures NothingMovedUnder(reg, sets, insts, start, end, region)
  {
  }

  lemma OnlyIfConverges(reg: Registry, sets: Sets, insts: set<Inst>, start: Mats, region: iset<Cell>)
    requires reg.Valid() && Region(reg, sets, region) && forall i :: i in insts ==> i.op in reg.byOp
    requires forall end :: Completes(reg, sets, insts, start, end) ==> AllFresh(reg, sets, end, region)
    ensures LeftAloneFresh(reg, sets, insts, start, region)
    ensures WritesReadable(reg, sets, insts, region) && ReadersWritten(reg, sets, insts, region)
  {
    forall c, d | c in region && ReadsCell(reg, sets, c, d) && Written(reg, insts, d) ensures Written(reg, insts, c) {
      if !Written(reg, insts, c) {
        var end := LeftAloneCanGoStale(reg, sets, insts, start, c, d);
        assert false;
      }
    }
    var end := RunToEnd(reg, sets, insts, start, "1");
    forall c | c in region && !Written(reg, insts, c) ensures Fresh(reg, sets, start, c) {
      WasFresh(reg, sets, insts, start, end, region, c);
    }
    ConvergesIff(reg, sets, insts, start, end, region);
  }

  /**
   * Convergence, told before the run: every run of the instances, in any order
   * and with any fingerprints, leaves the whole region fresh exactly when what
   * they leave alone is fresh to begin with, what they write is readable, and
   * whatever reads a cell they write is written too.
   */
  lemma AlwaysConvergesIff(reg: Registry, sets: Sets, insts: set<Inst>, start: Mats, region: iset<Cell>)
    requires reg.Valid() && Region(reg, sets, region) && forall i :: i in insts ==> i.op in reg.byOp
    ensures (forall end :: Completes(reg, sets, insts, start, end) ==> AllFresh(reg, sets, end, region)) <==>
            && LeftAloneFresh(reg, sets, insts, start, region)
            && WritesReadable(reg, sets, insts, region)
            && ReadersWritten(reg, sets, insts, region)
  {
    if forall end :: Completes(reg, sets, insts, start, end) ==> AllFresh(reg, sets, end, region) {
      OnlyIfConverges(reg, sets, insts, start, region);
    }
    if LeftAloneFresh(reg, sets, insts, start, region) && WritesReadable(reg, sets, insts, region)
       && ReadersWritten(reg, sets, insts, region) {
      forall end | Completes(reg, sets, insts, start, end) ensures AllFresh(reg, sets, end, region) {
        NothingMoves(reg, sets, insts, start, end, region);
        ConvergesIff(reg, sets, insts, start, end, region);
      }
    }
  }
}
