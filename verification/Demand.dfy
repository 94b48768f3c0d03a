/**
 * What a plan covers (src/asset.rs): every dep of every planned op is planned or
 * seeded, demand for keys is closed under what planned cells read, and nothing
 * is planned that nobody reads.
 */
module Demand {
  import opened Prelude
  import opened Assets
  import opened Freshness
  import opened Builds
  import opened Plan

  /** A plan together with the keys its fan-outs were seeded from. */
  ghost predicate PlanWith(reg: Registry, sets: Sets, mats: Mats, want: set<Name>, targets: seq<Name>,
                           named: map<Name, seq<Key>>, plan: BuildPlan, keys: map<Name, seq<Key>>)
    requires reg.Valid() && SetsFor(reg, sets)
  {
    && PlannedOps(reg, sets, mats, want, targets, plan.ops) && ClosedUp(reg, want, [])
    && KeyTargetsFrom(reg, sets, mats, plan.ops, targets, named, keys, 0)
    && SeedsFrom(reg, mats, plan.ops, keys, plan.seeds, |plan.ops|)
  }

  lemma PlansWith(reg: Registry, sets: Sets, mats: Mats, want: set<Name>, targets: seq<Name>,
                  named: map<Name, seq<Key>>, plan: BuildPlan) returns (keys: map<Name, seq<Key>>)
    requires reg.Valid() && SetsFor(reg, sets) && Plans(reg, sets, mats, want, targets, named, plan)
    requires ClosedUp(reg, want, [])
    ensures PlanWith(reg, sets, mats, want, targets, named, plan, keys)
  {
    keys :| KeyTargetsFrom(reg, sets, mats, plan.ops, targets, named, keys, 0)
         && SeedsFrom(reg, mats, plan.ops, keys, plan.seeds, |plan.ops|);
  }

  // ----------------------------------------------------------- planned or seeded

  lemma SeededIffUnplanned(reg: Registry, mats: Mats, ops: seq<Name>, keys: map<Name, seq<Key>>,
                           seeds: map<Seed, Seeded>, op: Name, dep: Name)
    requires reg.NamesIndexed() && reg.OpsIndexed() && forall x :: x in ops ==> x in reg.byOp
    requires SeedsFrom(reg, mats, ops, keys, seeds, |ops|) && op in ops && dep in reg.Op(op).deps
    ensures reg.Producer(dep) in ops <==> ValueOf(reg.Producer(dep)) !in seeds
    ensures reg.Producer(dep) !in ops ==>
              seeds[ValueOf(reg.Producer(dep))] == Stored(SeedValue(reg, mats, reg.Producer(dep)))
  {
    var i :| 0 <= i < |ops| && ops[i] == op;
    assert dep in reg.Op(ops[i]).deps && ReadByPlan(reg, ops, |ops|, reg.Producer(dep));
  }

  /** For every dep of every planned op, its producer is planned or seeded, and never both. */
  lemma PlannedOrSeeded(reg: Registry, sets: Sets, mats: Mats, want: set<Name>, targets: seq<Name>,
                        named: map<Name, seq<Key>>, plan: BuildPlan, op: Name, dep: Name)
    requires reg.Valid() && SetsFor(reg, sets) && Plans(reg, sets, mats, want, targets, named, plan)
    requires ClosedUp(reg, want, [])
    requires op in plan.ops && op in reg.byOp && dep in reg.Op(op).deps
    ensures reg.Producer(dep) in plan.ops <==> ValueOf(reg.Producer(dep)) !in plan.seeds
  {
    var keys := PlansWith(reg, sets, mats, want, targets, named, plan);
    SeededIffUnplanned(reg, mats, plan.ops, keys, plan.seeds, op, dep);
  }

  lemma PlannedReadsWanted(reg: Registry, sets: Sets, mats: Mats, want: set<Name>, targets: seq<Name>, ops: seq<Name>,
                           op: Name, dep: Name)
    requires reg.Valid() && PlannedOps(reg, sets, mats, want, targets, ops) && ClosedUp(reg, want, [])
    requires op in ops && op in reg.byOp && dep in reg.Op(op).deps
    ensures dep in want && dep in reg.byName
  {
    var o := reg.Op(op);
    assert PlannedOp(reg, sets, mats, want, targets, o);
    var a :| a in o.produces && Asks(reg, sets, mats, want, targets, a);
    OpDepsRank(reg, o, a, dep);
    assert reg.ValidOp(o) && Makes(o, reg.Meta(a));
  }

  /** A derived dep the plan leaves alone is fresh. */
  lemma UnplannedDepFresh(reg: Registry, sets: Sets, mats: Mats, want: set<Name>, targets: seq<Name>, ops: seq<Name>,
                          op: Name, dep: Name)
    requires reg.Valid() && PlannedOps(reg, sets, mats, want, targets, ops) && ClosedUp(reg, want, [])
    requires op in ops && op in reg.byOp && dep in reg.Op(op).deps
    requires dep in reg.byName && !reg.IsSource(dep) && reg.Producer(dep) !in ops
    ensures AssetFresh(reg, sets, mats, dep)
  {
    PlannedReadsWanted(reg, sets, mats, want, targets, ops, op, dep);
    ProducerMakes(reg, dep);
    assert !PlannedOp(reg, sets, mats, want, targets, reg.Op(reg.Producer(dep)));
    assert !Asks(reg, sets, mats, want, targets, dep);
  }

  /** What a producer of unpartitioned assets is seeded with holds each one's stored value. */
  lemma SeedHolds(reg: Registry, sets: Sets, mats: Mats, dep: Name)
    requires reg.Valid() && SetsFor(reg, sets) && dep in reg.byName && !reg.IsSource(dep) && dep !in sets
    requires Cell(dep, None) in mats
    ensures Part(reg.OpFor(dep).produces, SeedValue(reg, mats, reg.Producer(dep)), dep) == mats[Cell(dep, None)].value
  {
    ProducerMakes(reg, dep);
  }

  /** An unpartitioned dep the plan leaves alone is fresh, and seeded with exactly the value it holds. */
  lemma UnplannedDepSeeded(reg: Registry, sets: Sets, mats: Mats, want: set<Name>, targets: seq<Name>,
                           named: map<Name, seq<Key>>, plan: BuildPlan, op: Name, dep: Name) returns (seed: Value)
    requires reg.Valid() && SetsFor(reg, sets) && Plans(reg, sets, mats, want, targets, named, plan)
    requires ClosedUp(reg, want, [])
    requires op in plan.ops && op in reg.byOp && dep in reg.Op(op).deps
    requires dep in reg.byName && !reg.IsSource(dep) && reg.Producer(dep) !in plan.ops && dep !in sets
    ensures Fresh(reg, sets, mats, Cell(dep, None)) && ValueOf(reg.Producer(dep)) in plan.seeds
    ensures plan.seeds[ValueOf(reg.Producer(dep))] == Stored(seed)
    ensures Part(reg.OpFor(dep).produces, seed, dep) == mats[Cell(dep, None)].value
  {
    UnplannedDepFresh(reg, sets, mats, want, targets, plan.ops, op, dep);
    var keys := PlansWith(reg, sets, mats, want, targets, named, plan);
    SeededIffUnplanned(reg, mats, plan.ops, keys, plan.seeds, op, dep);
    seed := SeedValue(reg, mats, reg.Producer(dep));
    SeedHolds(reg, sets, mats, dep);
  }

  // ----------------------------------------------------------- demand

  lemma FanOutSeeded(reg: Registry, mats: Mats, ops: seq<Name>, keys: map<Name, seq<Key>>, plan: BuildPlan, op: Name)
    requires reg.NamesIndexed() && reg.OpsIndexed() && plan.ops == ops && forall x :: x in ops ==> x in reg.byOp
    requires SeedsFrom(reg, mats, ops, keys, plan.seeds, |ops|) && op in ops && reg.Op(op).partitions.Some?
    requires op in keys
    ensures FanOut(plan, op) == keys[op]
  {
    assert ops[..|ops|] == ops;
    assert KeysOf(op) in plan.seeds;
  }

  lemma TargetedOp(reg: Registry, sets: Sets, mats: Mats, ops: seq<Name>, targets: seq<Name>,
                   named: map<Name, seq<Key>>, keys: map<Name, seq<Key>>, o: OpMeta)
    requires reg.Valid() && SetsFor(reg, sets) && AllTargeted(reg, sets, mats, ops, targets, named, keys, 0)
    requires PartitionedOp(reg, o, ops)
    ensures o.name in keys && o.name in reg.byName && o.name in sets
    ensures TargetsOf(reg, sets, mats, ops, targets, named, keys, o.name)
  {
    PartitionedOpAsset(reg, sets, o);
    assert reg.byOp[o.name] >= 0;
  }

  /** The fan-out of a planned partitioned op is exactly its key targets. */
  lemma FanOutIsTargets(reg: Registry, sets: Sets, mats: Mats, want: set<Name>, targets: seq<Name>,
                        named: map<Name, seq<Key>>, plan: BuildPlan, keys: map<Name, seq<Key>>, o: OpMeta)
    requires reg.Valid() && SetsFor(reg, sets) && PlanWith(reg, sets, mats, want, targets, named, plan, keys)
    requires PartitionedOp(reg, o, plan.ops)
    ensures o.name in keys && FanOut(plan, o.name) == keys[o.name]
    ensures o.name in reg.byName && o.name in sets
    ensures TargetsOf(reg, sets, mats, plan.ops, targets, named, keys, o.name)
  {
    TargetedOp(reg, sets, mats, plan.ops, targets, named, keys, o);
    assert reg.Op(o.name) == o;
    FanOutSeeded(reg, mats, plan.ops, keys, plan, o.name);
  }

  lemma ReadingIncludes(keys: map<Name, seq<Key>>, o: OpMeta, at: Option<Key>)
    requires if o.partitions.Some? then o.name in keys && at.Some? && at.value in keys[o.name] else at.None?
    ensures at in Reading(keys, o)
  {
    if o.partitions.Some? {
      var i :| 0 <= i < |keys[o.name]| && keys[o.name][i] == at.value;
      assert Reading(keys, o)[i] == at;
    }
  }

  /** What a planned cell reads is demanded. */
  lemma PlannedReadIsDemanded(reg: Registry, sets: Sets, mats: Mats, want: set<Name>, targets: seq<Name>,
                              named: map<Name, seq<Key>>,
                              plan: BuildPlan, keys: map<Name, seq<Key>>, op: Name, c: Cell, d: Cell)
    requires reg.Valid() && SetsFor(reg, sets) && PlanWith(reg, sets, mats, want, targets, named, plan, keys)
    requires op in plan.ops && op in reg.byOp && OpCell(reg, plan, op, c)
    requires d.asset in sets && d.key.Some? && Captures(sets, reg.Op(op), c.key, d)
    ensures Demanded(reg, sets, plan.ops, keys, d.asset, d.key.value)
  {
    var o := reg.Op(op);
    if o.partitions.Some? {
      FanOutIsTargets(reg, sets, mats, want, targets, named, plan, keys, o);
    }
    ReadingIncludes(keys, o, c.key);
    assert ReadBy(sets, keys, o, d.asset, d.key.value);
  }

  ghost predicate Settled(reg: Registry, sets: Sets, mats: Mats, a: Name, k: Key)
    requires reg.Valid() && a in reg.byName
  {
    KeyFresh(reg, sets, mats, a, k) || !Buildable(sets, reg.Meta(a).deps, reg.Meta(a).maps, k)
  }

  /** A demanded key is planned unless it is fresh or nothing could build it. */
  lemma DemandedIsPlanned(reg: Registry, sets: Sets, mats: Mats, want: set<Name>, targets: seq<Name>,
                          named: map<Name, seq<Key>>, plan: BuildPlan, keys: map<Name, seq<Key>>, o: OpMeta, k: Key)
    requires reg.Valid() && SetsFor(reg, sets) && PlanWith(reg, sets, mats, want, targets, named, plan, keys)
    requires PartitionedOp(reg, o, plan.ops) && o.name in sets && o.name in reg.byName
    requires Demanded(reg, sets, plan.ops, keys, o.name, k)
    ensures k in FanOut(plan, o.name) || Settled(reg, sets, mats, o.name, k)
  {
    FanOutIsTargets(reg, sets, mats, want, targets, named, plan, keys, o);
    var base :| StartsFrom(reg, sets, mats, targets, named, o.name, base)
             && Targets(reg, sets, mats, plan.ops, keys, o.name, base, keys[o.name]);
  }

  /** How a read of a planned cell stands with the plan. */
  ghost predicate Covered(reg: Registry, sets: Sets, mats: Mats, plan: BuildPlan, d: Cell)
    requires reg.Valid() && d.asset in reg.byName
  {
    || PlanCell(reg, plan, d)
    || (d.key.None? && Fresh(reg, sets, mats, d))
    || (d.key.Some? && Settled(reg, sets, mats, d.asset, d.key.value))
    || (d.key.Some? && reg.Producer(d.asset) !in plan.ops && d.asset in sets && d.key.value !in sets[d.asset])
  }

  lemma CoveredUnplanned(reg: Registry, sets: Sets, mats: Mats, plan: BuildPlan, d: Cell)
    requires reg.Valid() && d.asset in reg.byName && reg.Producer(d.asset) !in plan.ops
    requires AssetFresh(reg, sets, mats, d.asset)
    requires d.key.Some? <==> d.asset in sets
    ensures Covered(reg, sets, mats, plan, d)
  {
  }

  /**
   * Demand is closed: whatever a planned cell reads of a derived asset is itself
   * planned, or already fresh, or a key nothing can build, or one the dep never
   * had and is not being built for.
   */
  lemma DemandClosed(reg: Registry, sets: Sets, mats: Mats, want: set<Name>, targets: seq<Name>,
                     named: map<Name, seq<Key>>, plan: BuildPlan, op: Name, c: Cell, d: Cell)
    requires reg.Valid() && SetsFor(reg, sets) && Plans(reg, sets, mats, want, targets, named, plan)
    requires ClosedUp(reg, want, [])
    requires op in plan.ops && op in reg.byOp && OpCell(reg, plan, op, c)
    requires Captures(sets, reg.Op(op), c.key, d) && d.asset in reg.byName && !reg.IsSource(d.asset)
    ensures Covered(reg, sets, mats, plan, d)
  {
    ProducerMakes(reg, d.asset);
    if reg.Producer(d.asset) !in plan.ops {
      UnplannedDepFresh(reg, sets, mats, want, targets, plan.ops, op, d.asset);
      CoveredUnplanned(reg, sets, mats, plan, d);
    } else {
      PlannedDepCovered(reg, sets, mats, want, targets, named, plan, op, c, d);
    }
  }

  lemma PlannedDepCovered(reg: Registry, sets: Sets, mats: Mats, want: set<Name>, targets: seq<Name>,
                          named: map<Name, seq<Key>>, plan: BuildPlan, op: Name, c: Cell, d: Cell)
    requires reg.Valid() && SetsFor(reg, sets) && Plans(reg, sets, mats, want, targets, named, plan)
    requires ClosedUp(reg, want, [])
    requires op in plan.ops && op in reg.byOp && OpCell(reg, plan, op, c)
    requires Captures(sets, reg.Op(op), c.key, d) && d.asset in reg.byName && !reg.IsSource(d.asset)
    requires reg.Producer(d.asset) in plan.ops
    ensures Covered(reg, sets, mats, plan, d)
  {
    ProducerMakes(reg, d.asset);
    var p := reg.Op(reg.Producer(d.asset));
    if d.asset in sets {
      OwnOp(reg, sets, d.asset);
      var keys := PlansWith(reg, sets, mats, want, targets, named, plan);
      PlannedReadIsDemanded(reg, sets, mats, want, targets, named, plan, keys, op, c, d);
      DemandedIsPlanned(reg, sets, mats, want, targets, named, plan, keys, p, d.key.value);
    }
    assert OpCell(reg, plan, p.name, d) ==> PlanCell(reg, plan, d);
  }

  /** A partitioned asset has an op to itself, of its own name. */
  lemma OwnOp(reg: Registry, sets: Sets, a: Name)
    requires reg.Valid() && SetsFor(reg, sets) && a in sets && a in reg.byName && !reg.IsSource(a)
    ensures reg.Producer(a) == a && a in reg.byOp && reg.Op(a).produces == [a] && reg.Op(a).partitions.Some?
  {
    ProducerMakes(reg, a);
    assert reg.ValidOp(reg.Op(reg.Producer(a)));
  }

  lemma TargetWasDemanded(reg: Registry, sets: Sets, mats: Mats, ops: seq<Name>, targets: seq<Name>,
                          named: map<Name, seq<Key>>, keys: map<Name, seq<Key>>, a: Name, k: Key)
    requires reg.Valid() && a in reg.byName && a in sets && a in keys && k in keys[a]
    requires TargetsOf(reg, sets, mats, ops, targets, named, keys, a) && a !in targets && a !in named
    ensures Demanded(reg, sets, ops, keys, a, k) && !Settled(reg, sets, mats, a, k)
  {
    var base :| StartsFrom(reg, sets, mats, targets, named, a, base) && Targets(reg, sets, mats, ops, keys, a, base,
                                                                                keys[a]);
  }

  /**
   * Demand is minimal: a planned key of an asset nobody asked for is owed, can be
   * built, and is read by a planned cell.
   */
  lemma DemandMinimal(reg: Registry, sets: Sets, mats: Mats, want: set<Name>, targets: seq<Name>,
                      named: map<Name, seq<Key>>,
                      plan: BuildPlan, op: Name, d: Cell) returns (reader: Name, at: Option<Key>)
    requires reg.Valid() && SetsFor(reg, sets) && Plans(reg, sets, mats, want, targets, named, plan)
    requires ClosedUp(reg, want, [])
    requires op in plan.ops && op in reg.byOp && OpCell(reg, plan, op, d) && d.key.Some?
    requires d.asset !in targets && d.asset !in named
    ensures d.asset in reg.byName && d.asset in sets && !Settled(reg, sets, mats, d.asset, d.key.value)
    ensures reader in plan.ops && reader in reg.byOp && d.asset in reg.Op(reader).deps
    ensures forall a :: a in reg.Op(reader).produces ==> OpCell(reg, plan, reader, Cell(a, at))
    ensures d.key.value in ReadKeys(sets, reg.Op(reader).maps, d.asset, at)
  {
    var keys := PlansWith(reg, sets, mats, want, targets, named, plan);
    var o := reg.Op(op);
    assert reg.ValidOp(o) && d.asset == op;
    FanOutIsTargets(reg, sets, mats, want, targets, named, plan, keys, o);
    TargetWasDemanded(reg, sets, mats, plan.ops, targets, named, keys, op, d.key.value);
    reader, at := DemandHasReader(reg, sets, mats, want, targets, named, plan, keys, op, d.key.value);
  }

  lemma ReadingIsPlanned(reg: Registry, plan: BuildPlan, keys: map<Name, seq<Key>>, o: OpMeta, at: Option<Key>)
    requires reg.OpsIndexed() && o in reg.ops && at in Reading(keys, o)
    requires o.partitions.Some? ==> o.name in keys && FanOut(plan, o.name) == keys[o.name]
    ensures forall b :: b in o.produces ==> OpCell(reg, plan, o.name, Cell(b, at))
  {
  }

  lemma DemandHasReader(reg: Registry, sets: Sets, mats: Mats, want: set<Name>, targets: seq<Name>,
                        named: map<Name, seq<Key>>,
                        plan: BuildPlan, keys: map<Name, seq<Key>>, a: Name, k: Key) returns (reader: Name,
                                                                                              at: Option<Key>)
    requires reg.Valid() && SetsFor(reg, sets) && PlanWith(reg, sets, mats, want, targets, named, plan, keys)
    requires a in sets && Demanded(reg, sets, plan.ops, keys, a, k)
    ensures reader in plan.ops && reader in reg.byOp && a in reg.Op(reader).deps
    ensures forall b :: b in reg.Op(reader).produces ==> OpCell(reg, plan, reader, Cell(b, at))
    ensures k in ReadKeys(sets, reg.Op(reader).maps, a, at)
  {
    var o :| o in reg.ops && o.name in plan.ops && a in o.deps && ReadBy(sets, keys, o, a, k);
    at :| at in Reading(keys, o) && k in ReadKeys(sets, o.maps, a, at);
    reader := o.name;
    if o.partitions.Some? {
      FanOutIsTargets(reg, sets, mats, want, targets, named, plan, keys, o);
    }
    ReadingIsPlanned(reg, plan, keys, o, at);
  }
}
