/**
 * Where the builder's obvious promises stop: for each hypothesis the other
 * modules carry, the input that breaks the promise without it.
 */
module Limits {
  import opened Prelude
  import opened Assets
  import opened Freshness
  import opened Builds
  import Memo
  import MemoRuns
  import opened Plan
  import opened Demand
  import opened Execution
  import opened Convergence

  // ----------------------------------------------------------- reads that can never be fresh

  lemma OffsetEdgeFails(reg: Registry, world: World, history: Memo.History, sets: Sets, mats: Mats, c: Cell, dep: Name,
                        k: Key)
    requires reg.Valid() && c.asset in reg.byName && !reg.IsSource(c.asset) && c in mats
    requires Memo.Explained(reg, world, history, sets, None, c, mats[c])
    requires dep in reg.Meta(c.asset).deps && dep in sets && MappingOf(reg.Meta(c.asset).maps, dep).Offset?
    ensures !EdgeHolds(reg, sets, mats, c, Cell(dep, Some(k)))
  {
    var noted: Sets, handed: Sets, snap: Mats :|
      noted.Keys == handed.Keys == sets.Keys && Memo.ExplainedBy(reg, world, history, noted, handed, snap, c, mats[c]);
    Memo.DerivedFacts(reg, c.asset);
    Memo.OffsetHadNothing(noted, sets, reg.OpFor(c.asset), c.key, mats[c], snap, dep, Some(k));
  }

  /**
   * In no reachable state is a cell fresh that reads a key its dep holds through
   * an offset: the fingerprint is recorded bare and looked up by key.
   */
  lemma FreshOffsetFindsNothing(reg: Registry, world: World, trace: seq<MemoRuns.State>, i: nat, c: Cell, dep: Name)
    requires reg.Valid() && MemoRuns.Behaviour(reg, world, trace) && i < |trace| && c.asset in reg.byName
    requires !reg.IsSource(c.asset)
    requires dep in reg.Meta(c.asset).deps && dep in trace[i].sets && MappingOf(reg.Meta(c.asset).maps, dep).Offset?
    requires Fresh(reg, trace[i].sets, trace[i].mats, c)
    ensures ReadKeys(trace[i].sets, reg.Meta(c.asset).maps, dep, c.key) == []
  {
    MemoRuns.InvThroughout(reg, world, trace, i, false);
    assert (c, trace[i].mats[c]) in trace[i].history;
    OffsetReadsNothing(reg, world, trace[i].history, trace[i].sets, trace[i].mats, c, dep);
  }

  lemma OffsetReadsNothing(reg: Registry, world: World, history: Memo.History, sets: Sets, mats: Mats, c: Cell,
                           dep: Name)
    requires reg.Valid() && c.asset in reg.byName && !reg.IsSource(c.asset) && Fresh(reg, sets, mats, c)
    requires Memo.Explained(reg, world, history, sets, None, c, mats[c])
    requires dep in reg.Meta(c.asset).deps && dep in sets && MappingOf(reg.Meta(c.asset).maps, dep).Offset?
    ensures ReadKeys(sets, reg.Meta(c.asset).maps, dep, c.key) == []
  {
    var keys := ReadKeys(sets, reg.Meta(c.asset).maps, dep, c.key);
    if keys != [] {
      OffsetEdgeFails(reg, world, history, sets, mats, c, dep, keys[0]);
      assert keys[0] in keys;
      Memo.InConsulted(sets, reg.Meta(c.asset).maps, dep, c.key, keys[0]);
      FreshEdge(reg, sets, mats, c, Cell(dep, Some(keys[0])));
    }
  }

  /** Where key sets have only grown since a row was recorded, a fresh cell has had nothing dropped from under it. */
  lemma GrowthDropsNothing(reg: Registry, world: World, history: Memo.History, noted: Sets, handed: Sets, snap: Mats,
                           sets: Sets, mats: Mats, c: Cell)
    requires reg.Valid() && c.asset in reg.byName && !reg.IsSource(c.asset) && Fresh(reg, sets, mats, c)
    requires Memo.Grown(noted, sets) && handed.Keys == sets.Keys
    requires Memo.ExplainedBy(reg, world, history, noted, handed, snap, c, mats[c])
    ensures Memo.NothingDropped(reg, sets, mats, c)
  {
    var op := reg.OpFor(c.asset);
    Memo.DerivedFacts(reg, c.asset);
    forall dep | dep in op.deps ensures Memo.StillReads(sets, op.maps, c.key, mats[c], dep) {
      if dep in sets && MappingOf(op.maps, dep).Offset? {
        assert Memo.Explained(reg, world, history, sets, None, c, mats[c]);
        OffsetReadsNothing(reg, world, history, sets, mats, c, dep);
      }
      GrowthKeepsRead(noted, sets, op, c.key, mats[c], snap, dep);
    }
  }

  lemma GrowthKeepsRead(sets0: Sets, sets: Sets, op: OpMeta, key: Option<Key>, row: Mat, snap: Mats, dep: Name)
    requires Memo.Grown(sets0, sets) && dep in op.deps && row.inputs == RecordedInputs(sets0, op, key, snap)
    requires dep in sets && MappingOf(op.maps, dep).Offset? ==> ReadKeys(sets, op.maps, dep, key) == []
    ensures Memo.StillReads(sets, op.maps, key, row, dep)
  {
    if Mapped(sets, op.maps, dep) {
      forall k | k in ReadKeys(sets0, op.maps, dep, key) ensures k in ReadKeys(sets, op.maps, dep, key) {
        Memo.KeysGrow(sets0, sets, op.maps, dep, key, k);
      }
      assert row.inputs[dep] == Recorded(sets0, op, key, snap, dep);
      HasMember(ReadKeys(sets0, op.maps, dep, key));
    }
  }

  lemma HasMember(keys: seq<Key>)
    ensures keys == [] || exists k :: k in keys
  {
    if keys != [] {
      assert keys[0] in keys;
    }
  }

  lemma FreshEdge(reg: Registry, sets: Sets, mats: Mats, c: Cell, d: Cell)
    requires reg.Valid() && c.asset in reg.byName && Fresh(reg, sets, mats, c)
    requires d.asset in reg.Meta(c.asset).deps && d.key in Consulted(sets, reg.Meta(c.asset).maps, d.asset, c.key)
    ensures c in mats && EdgeHolds(reg, sets, mats, c, d)
  {
    assert ReadsCell(reg, sets, c, d);
  }

  /** A key read at its own name that the dep does not have: the reader is fresh in no state. */
  lemma OutsideReadNeverFresh(reg: Registry, sets: Sets, mats: Mats, c: Cell, dep: Name)
    requires reg.Valid() && c.asset in reg.byName && c.key.Some?
    requires dep in reg.Meta(c.asset).deps && dep in sets && MappingOf(reg.Meta(c.asset).maps, dep).Identity?
    requires c.key.value !in sets[dep]
    ensures !Fresh(reg, sets, mats, c)
  {
    assert ReadsCell(reg, sets, c, Cell(dep, c.key));
  }

  /** And yet it is planned: the dep's fan-out takes a key outside its own set. */
  lemma OutsideReadIsPlanned(reg: Registry, sets: Sets, mats: Mats, want: set<Name>, targets: seq<Name>,
                             named: map<Name, seq<Key>>, plan: BuildPlan, op: Name, c: Cell, dep: Name)
    requires reg.Valid() && SetsFor(reg, sets) && Plans(reg, sets, mats, want, targets, named, plan)
    requires ClosedUp(reg, want, [])
    requires op in plan.ops && op in reg.byOp && OpCell(reg, plan, op, c) && c.key.Some?
    requires dep in reg.Op(op).deps && dep in reg.byName && dep in sets && MappingOf(reg.Op(op).maps, dep).Identity?
    requires reg.Producer(dep) in plan.ops && !reg.IsSource(dep) && c.key.value !in sets[dep]
    requires Buildable(sets, reg.Meta(dep).deps, reg.Meta(dep).maps, c.key.value)
    ensures PlanCell(reg, plan, Cell(dep, c.key))
  {
    DemandClosed(reg, sets, mats, want, targets, named, plan, op, c, Cell(dep, c.key));
  }

  // ----------------------------------------------------------- a default build's limit

  ghost function Owed(reg: Registry, sets: Sets, mats: Mats, a: Name): set<Key>
    requires reg.Valid() && a in reg.byName && a in sets
  {
    set k | k in sets[a] && Defaultable(reg, sets, mats, a, k)
  }

  /** A default build takes every owed key exactly when there are no more of them than its limit. */
  lemma DefaultCoversIff(reg: Registry, sets: Sets, mats: Mats, a: Name, limit: nat, keys: seq<Key>)
    requires reg.Valid() && a in reg.byName && a in sets && NewestStale(reg, sets, mats, a, limit, keys)
    ensures (forall k :: Defaultable(reg, sets, mats, a, k) ==> k in keys) <==> |Owed(reg, sets, mats, a)| <= limit
  {
    forall i, j | 0 <= i < j < |keys| ensures keys[i] != keys[j] {
      AfterTotal(keys[i], keys[j]);
    }
    var taken := set k | k in keys;
    DistinctCount(keys);
    assert taken <= Owed(reg, sets, mats, a);
    if forall k :: Defaultable(reg, sets, mats, a, k) ==> k in keys {
      assert taken == Owed(reg, sets, mats, a);
    } else {
      var k :| Defaultable(reg, sets, mats, a, k) && k !in keys;
      SubsetSize(taken + {k}, Owed(reg, sets, mats, a));
    }
  }

  lemma {:induction false} DistinctCount(keys: seq<Key>)
    requires NoRepeats(keys)
    ensures |set k | k in keys| == |keys|
  {
    if keys != [] {
      var n := |keys| - 1;
      DistinctCount(keys[..n]);
      assert keys == keys[..n] + [keys[n]];
      assert (set k | k in keys) == (set k | k in keys[..n]) + {keys[n]};
    }
  }

  lemma {:induction false} DepPathRank(reg: Registry, p: seq<Name>)
    requires reg.Valid() && DepPath(reg, p)
    ensures reg.byName[p[|p| - 1]] <= reg.byName[p[0]]
  {
    if |p| > 1 {
      var q := p[..|p| - 1];
      forall k | 0 <= k < |q| - 1 ensures q[k + 1] in reg.Meta(q[k]).deps {
        assert p[k + 1] in reg.Meta(p[k]).deps;
      }
      DepPathRank(reg, q);
      assert p[|p| - 2 + 1] in reg.Meta(p[|p| - 2]).deps;
      assert reg.ValidMeta(reg.byName[p[|p| - 2]]);
    }
  }

  lemma TargetWanted(reg: Registry, a: Name)
    requires reg.NamesIndexed() && a in reg.byName
    ensures Wanted(reg, [a], a)
  {
    var p := [a];
    assert DepPath(reg, p) && p[0] in [a] && p[|p| - 1] == a;
  }

  /** With one target, no op of its plan reads it: everything planned is upstream. */
  lemma NothingReadsTarget(reg: Registry, sets: Sets, mats: Mats, want: set<Name>, ops: seq<Name>, a: Name)
    requires reg.Valid() && PlannedOps(reg, sets, mats, want, [a], ops)
    requires forall n :: n in want <==> Wanted(reg, [a], n)
    ensures forall n :: n in ops && n in reg.byOp ==> a !in reg.Op(n).deps
  {
    forall n | n in ops && n in reg.byOp ensures a !in reg.Op(n).deps {
      var o := reg.Op(n);
      assert PlannedOp(reg, sets, mats, want, [a], o);
      var b :| b in o.produces && Asks(reg, sets, mats, want, [a], b);
      var p :| DepPath(reg, p) && p[0] in [a] && p[|p| - 1] == b;
      DepPathRank(reg, p);
      if a in o.deps {
        OpDepsRank(reg, o, b, a);
      }
    }
  }

  lemma DefaultPlanLeavesOut(reg: Registry, sets: Sets, start: Mats, want: set<Name>, plan: BuildPlan,
                             a: Name) returns (k: Key)
    requires reg.Valid() && SetsFor(reg, sets) && a in reg.byName && a in sets && !reg.IsSource(a)
    requires Plans(reg, sets, start, want, [a], map[], plan) && forall n :: n in want <==> Wanted(reg, [a], n)
    requires reg.Meta(a).partitions.Some? && |Owed(reg, sets, start, a)| > reg.Meta(a).partitions.value.limit
    ensures k in Owed(reg, sets, start, a) && !PlanCell(reg, plan, Cell(a, Some(k)))
  {
    WantedIsClosed(reg, [a], want);
    TargetWanted(reg, a);
    NothingReadsTarget(reg, sets, start, want, plan.ops, a);
    var keys := PlansWith(reg, sets, start, want, [a], map[], plan);
    OwnOp(reg, sets, a);
    TargetOpPlanned(reg, sets, start, want, plan.ops, a);
    FanOutIsTargets(reg, sets, start, want, [a], map[], plan, keys, reg.Op(a));
    NoReaders(reg, plan.ops, a);
    k := LeftOut(reg, sets, start, plan.ops, keys, a);
    if PlanCell(reg, plan, Cell(a, Some(k))) {
      SoleWriter(reg, plan, Cell(a, Some(k)));
    }
  }

  lemma TargetOpPlanned(reg: Registry, sets: Sets, mats: Mats, want: set<Name>, ops: seq<Name>, a: Name)
    requires reg.Valid() && PlannedOps(reg, sets, mats, want, [a], ops) && a in want && a in reg.byName
    requires a in reg.byOp && reg.Op(a).produces == [a]
    ensures a in ops
  {
    assert Asks(reg, sets, mats, want, [a], a);
    assert PlannedOp(reg, sets, mats, want, [a], reg.Op(a));
  }

  lemma NoReaders(reg: Registry, ops: seq<Name>, a: Name)
    requires reg.OpsIndexed() && forall n :: n in ops && n in reg.byOp ==> a !in reg.Op(n).deps
    ensures forall o :: o in reg.ops && o.name in ops ==> a !in o.deps
  {
    forall o | o in reg.ops && o.name in ops ensures a !in o.deps {
      assert reg.Op(o.name) == o;
    }
  }

  /** With more keys owed than that, none of them built yet, a whole default build leaves its target stale. */
  lemma DefaultBuildFallsShort(reg: Registry, sets: Sets, start: Mats, end: Mats, want: set<Name>, plan: BuildPlan,
                               insts: set<Inst>, a: Name)
    requires reg.Valid() && SetsFor(reg, sets) && a in reg.byName && a in sets && !reg.IsSource(a)
    requires Plans(reg, sets, start, want, [a], map[], plan) && forall n :: n in want <==> Wanted(reg, [a], n)
    requires reg.Meta(a).partitions.Some? && |Owed(reg, sets, start, a)| > reg.Meta(a).partitions.value.limit
    requires forall k :: k in Owed(reg, sets, start, a) ==> Cell(a, Some(k)) !in start
    requires Instances(reg, plan, insts) && Completes(reg, sets, insts, start, end)
    ensures !AssetFresh(reg, sets, end, a)
  {
    var k := DefaultPlanLeavesOut(reg, sets, start, want, plan, a);
    RunWritesItsClaims(reg, sets, plan, insts, start, end, Cell(a, Some(k)));
    assert !KeyFresh(reg, sets, end, a, k);
  }

  lemma SoleWriter(reg: Registry, plan: BuildPlan, c: Cell)
    requires reg.Valid() && c.asset in reg.byName && !reg.IsSource(c.asset) && PlanCell(reg, plan, c)
    ensures reg.Producer(c.asset) in reg.byOp && OpCell(reg, plan, reg.Producer(c.asset), c)
  {
    var op :| op in plan.ops && op in reg.byOp && OpCell(reg, plan, op, c);
    assert reg.ValidOp(reg.Op(op)) && Makes(reg.Op(op), reg.Meta(c.asset));
  }

  lemma LeftOut(reg: Registry, sets: Sets, mats: Mats, ops: seq<Name>, keys: map<Name, seq<Key>>,
                a: Name) returns (k: Key)
    requires reg.Valid() && a in reg.byName && a in sets && a in keys && reg.Meta(a).partitions.Some?
    requires TargetsOf(reg, sets, mats, ops, [a], map[], keys, a)
    requires forall o :: o in reg.ops && o.name in ops ==> a !in o.deps
    requires |Owed(reg, sets, mats, a)| > reg.Meta(a).partitions.value.limit
    ensures k in Owed(reg, sets, mats, a) && k !in keys[a]
  {
    var base :| StartsFrom(reg, sets, mats, [a], map[], a, base) && Targets(reg, sets, mats, ops, keys, a, base,
                                                                            keys[a]);
    DefaultCoversIff(reg, sets, mats, a, reg.Meta(a).partitions.value.limit, base);
    k :| Defaultable(reg, sets, mats, a, k) && k !in base;
    assert !Demanded(reg, sets, ops, keys, a, k);
  }
}
