/**
 * What a finished build leaves (src/asset.rs): a run writes exactly what its plan
 * claims, and a plan for one target, or for everything stale, leaves nothing of
 * it stale.
 */
module Convergence {
  import opened Prelude
  import opened Assets
  import opened Freshness
  import opened Builds
  import opened Plan
  import opened Demand
  import opened Execution

  ghost predicate PlanInst(reg: Registry, plan: BuildPlan, i: Inst)
    requires reg.OpsIndexed()
  {
    && i.op in plan.ops && i.op in reg.byOp
    && if reg.Op(i.op).partitions.Some? then i.key.Some? && i.key.value in FanOut(plan, i.op) else i.key.None?
  }

  /** The instances a plan fans out into. */
  ghost predicate Instances(reg: Registry, plan: BuildPlan, insts: set<Inst>)
    requires reg.OpsIndexed()
  {
    forall i :: i in insts <==> PlanInst(reg, plan, i)
  }

  lemma WrittenIsClaimed(reg: Registry, plan: BuildPlan, insts: set<Inst>, c: Cell)
    requires reg.OpsIndexed() && Instances(reg, plan, insts)
    ensures Written(reg, insts, c) <==> PlanCell(reg, plan, c)
  {
    if PlanCell(reg, plan, c) {
      var op :| op in plan.ops && op in reg.byOp && OpCell(reg, plan, op, c);
      assert InstCell(reg, Inst(op, c.key), c) && PlanInst(reg, plan, Inst(op, c.key));
    }
    if i :| i in insts && InstCell(reg, i, c) {
      assert OpCell(reg, plan, i.op, c);
    }
  }

  // Written by some planned op at some key, which recorded the fingerprints its inputs still have.
  ghost predicate BuiltFrom(reg: Registry, sets: Sets, plan: BuildPlan, end: Mats, c: Cell)
    requires reg.OpsIndexed() && c in end
  {
    exists op, key :: op in plan.ops && op in reg.byOp && BuiltAt(reg, sets, op, key, end, c)
  }

  ghost predicate BuiltAt(reg: Registry, sets: Sets, op: Name, key: Option<Key>, end: Mats, c: Cell)
    requires reg.OpsIndexed() && c in end && op in reg.byOp
  {
    c in OpCells(reg.Op(op), key) && end[c].inputs == RecordedInputs(sets, reg.Op(op), key, end)
  }

  /** A finished run of a plan wrote every claimed cell, from its final inputs, and no other. */
  lemma RunWritesItsClaims(reg: Registry, sets: Sets, plan: BuildPlan, insts: set<Inst>, start: Mats, end: Mats,
                           c: Cell)
    requires reg.Valid() && Instances(reg, plan, insts) && Completes(reg, sets, insts, start, end)
    ensures PlanCell(reg, plan, c) ==> c in end && BuiltFrom(reg, sets, plan, end, c)
    ensures !PlanCell(reg, plan, c) ==> (c in start <==> c in end) && (c in start ==> start[c] == end[c])
  {
    WrittenIsClaimed(reg, plan, insts, c);
    CompleteRun(reg, sets, insts, start, end);
    if PlanCell(reg, plan, c) {
      var i :| i in insts && InstCell(reg, i, c);
      assert end[c].inputs == Now(reg, sets, end, i);
      assert i.op in plan.ops && BuiltAt(reg, sets, i.op, i.key, end, c);
    }
  }

  /** A plan has its instances, a finite set of them. */
  lemma PlanFansOut(reg: Registry, plan: BuildPlan) returns (insts: set<Inst>)
    requires reg.OpsIndexed()
    ensures Instances(reg, plan, insts)
  {
    var whole := set op | op in plan.ops && op in reg.byOp && reg.Op(op).partitions.None? :: Inst(op, None);
    var parts := set op, k | op in plan.ops && op in reg.byOp && reg.Op(op).partitions.Some? && k in FanOut(plan, op) ::
      Inst(op, Some(k));
    insts := whole + parts;
  }

  // ----------------------------------------------------------- every run of a plan

  /** Whatever of the region reads a claimed cell is claimed too. */
  ghost predicate ReadersClaimed(reg: Registry, sets: Sets, plan: BuildPlan, region: iset<Cell>)
    requires reg.Valid()
  {
    forall c, d :: c in region && c.asset in reg.byName && ReadsCell(reg, sets, c, d) && PlanCell(reg, plan, d) ==>
      PlanCell(reg, plan, c)
  }

  ghost predicate UnclaimedFresh(reg: Registry, sets: Sets, plan: BuildPlan, start: Mats, region: iset<Cell>)
    requires reg.Valid()
  {
    forall c :: c in region && !PlanCell(reg, plan, c) ==> c.asset in reg.byName && Fresh(reg, sets, start, c)
  }

  ghost predicate ClaimsReadable(reg: Registry, sets: Sets, plan: BuildPlan, region: iset<Cell>)
    requires reg.Valid()
  {
    forall c, d :: c in region && c.asset in reg.byName && PlanCell(reg, plan, c) && ReadsCell(reg, sets, c, d) ==>
      Readable(sets, reg.Meta(c.asset).maps, d)
  }

  /** Every complete run of the plan's instances leaves the whole region fresh. */
  ghost predicate AlwaysFresh(reg: Registry, sets: Sets, insts: set<Inst>, start: Mats, region: iset<Cell>)
    requires reg.Valid()
  {
    forall end :: Completes(reg, sets, insts, start, end) ==> AllFresh(reg, sets, end, region)
  }

  /**
   * When a plan converges, told from the plan and the store it was made for:
   * every run of it leaves a region fresh exactly when what it does not claim is
   * fresh already, what it claims is readable, and the region's readers of what
   * it claims are claimed.
   */
  lemma PlanConvergesIff(reg: Registry, sets: Sets, start: Mats, plan: BuildPlan, insts: set<Inst>, region: iset<Cell>)
    requires reg.Valid() && Region(reg, sets, region) && Instances(reg, plan, insts)
    ensures AlwaysFresh(reg, sets, insts, start, region) <==>
            && UnclaimedFresh(reg, sets, plan, start, region)
            && ClaimsReadable(reg, sets, plan, region)
            && ReadersClaimed(reg, sets, plan, region)
  {
    forall c ensures Written(reg, insts, c) <==> PlanCell(reg, plan, c) {
      WrittenIsClaimed(reg, plan, insts, c);
    }
    AlwaysConvergesIff(reg, sets, insts, start, region);
  }

  ghost predicate OnPath(reg: Registry, sets: Sets, root: Cell, c: Cell)
    requires reg.Valid()
  {
    exists p :: ReadPath(reg, sets, p) && p[0] == root && p[|p| - 1] == c
  }

  ghost function Cone(reg: Registry, sets: Sets, root: Cell): iset<Cell>
    requires reg.Valid()
  {
    iset c | OnPath(reg, sets, root, c)
  }

  lemma PathExtends(reg: Registry, sets: Sets, root: Cell, c: Cell, d: Cell)
    requires reg.Valid() && OnPath(reg, sets, root, c) && c.asset in reg.byName && ReadsCell(reg, sets, c, d)
    ensures d.asset in reg.byName && OnPath(reg, sets, root, d)
  {
    ReadsRank(reg, sets, c, d);
    var p :| ReadPath(reg, sets, p) && p[0] == root && p[|p| - 1] == c;
    var q := p + [d];
    forall k | 0 <= k < |q| - 1 ensures ReadsCell(reg, sets, q[k], q[k + 1]) {
      if k < |p| - 1 {
        assert ReadsCell(reg, sets, p[k], p[k + 1]);
      }
    }
    assert ReadPath(reg, sets, q) && q[0] == root && q[|q| - 1] == d;
  }

  lemma PathPrefix(reg: Registry, sets: Sets, p: seq<Cell>)
    requires reg.Valid() && ReadPath(reg, sets, p) && |p| > 1
    ensures ReadPath(reg, sets, p[..|p| - 1]) && ReadsCell(reg, sets, p[|p| - 2], p[|p| - 1])
  {
    var q := p[..|p| - 1];
    forall k | 0 <= k < |q| - 1 ensures ReadsCell(reg, sets, q[k], q[k + 1]) {
      assert ReadsCell(reg, sets, p[k], p[k + 1]);
    }
    assert ReadsCell(reg, sets, p[|p| - 2], p[|p| - 2 + 1]);
  }

  lemma {:induction false} PathKeyed(reg: Registry, sets: Sets, p: seq<Cell>)
    requires reg.Valid() && SetsFor(reg, sets) && ReadPath(reg, sets, p) && WellKeyed(reg, sets, p[0])
    ensures WellKeyed(reg, sets, p[|p| - 1]) && reg.byName[p[|p| - 1].asset] <= reg.byName[p[0].asset]
  {
    if |p| > 1 {
      PathPrefix(reg, sets, p);
      PathKeyed(reg, sets, p[..|p| - 1]);
      ReadsWellKeyed(reg, sets, p[|p| - 2], p[|p| - 1]);
      ReadsRank(reg, sets, p[|p| - 2], p[|p| - 1]);
    }
  }

  lemma PathInCone(reg: Registry, sets: Sets, p: seq<Cell>)
    requires reg.Valid() && SetsFor(reg, sets) && ReadPath(reg, sets, p) && WellKeyed(reg, sets, p[0])
    ensures p[|p| - 1] in Cone(reg, sets, p[0]) && WellKeyed(reg, sets, p[|p| - 1])
  {
    PathKeyed(reg, sets, p);
  }

  lemma ConeIsRegion(reg: Registry, sets: Sets, root: Cell)
    requires reg.Valid() && SetsFor(reg, sets) && WellKeyed(reg, sets, root)
    ensures Region(reg, sets, Cone(reg, sets, root))
    ensures forall c :: c in Cone(reg, sets, root) ==> reg.byName[c.asset] <= reg.byName[root.asset]
  {
    forall c | c in Cone(reg, sets, root)
      ensures WellKeyed(reg, sets, c) && reg.byName[c.asset] <= reg.byName[root.asset]
    {
      var p :| ReadPath(reg, sets, p) && p[0] == root && p[|p| - 1] == c;
      PathKeyed(reg, sets, p);
    }
    forall c, d | c in Cone(reg, sets, root) && ReadsCell(reg, sets, c, d) ensures d in Cone(reg, sets, root) {
      PathExtends(reg, sets, root, c, d);
    }
  }

  /** Everything in a cone that a build can be asked to rely on: readable reads, and sources that have been probed. */
  ghost predicate Reliable(reg: Registry, sets: Sets, mats: Mats, c: Cell)
    requires reg.Valid() && c.asset in reg.byName
  {
    && (forall d :: ReadsCell(reg, sets, c, d) ==> Readable(sets, reg.Meta(c.asset).maps, d))
    && (reg.IsSource(c.asset) ==> c in mats)
  }

  lemma MissingIsRead(reg: Registry, sets: Sets, c: Cell, dep: Name) returns (d: Cell)
    requires reg.Valid() && c.asset in reg.byName && dep in reg.Meta(c.asset).deps
    requires Mapped(sets, reg.Meta(c.asset).maps, dep)
    requires Resolve(MappingOf(reg.Meta(c.asset).maps, dep), c.key, sets[dep]).missing != []
    ensures ReadsCell(reg, sets, c, d) && !Readable(sets, reg.Meta(c.asset).maps, d)
  {
    var m := MappingOf(reg.Meta(c.asset).maps, dep);
    var r := Resolve(m, c.key, sets[dep]);
    MappedWithin(m, c.key, sets[dep]);
    var all := r.keys + r.missing;
    assert r.missing[0] in r.missing && all[|r.keys|] == r.missing[0] && Somes(all)[|r.keys|] == Some(r.missing[0]);
    d := Cell(dep, Some(r.missing[0]));
  }

  lemma ReliableBuildable(reg: Registry, sets: Sets, mats: Mats, c: Cell)
    requires reg.Valid() && c.asset in reg.byName && Reliable(reg, sets, mats, c) && c.key.Some?
    ensures Buildable(sets, reg.Meta(c.asset).deps, reg.Meta(c.asset).maps, c.key.value)
  {
    var m := reg.Meta(c.asset);
    forall dep | dep in m.deps && Mapped(sets, m.maps, dep)
      ensures Resolve(MappingOf(m.maps, dep), c.key, sets[dep]).missing == []
    {
      if Resolve(MappingOf(m.maps, dep), c.key, sets[dep]).missing != [] {
        var d := MissingIsRead(reg, sets, c, dep);
      }
    }
  }

  /** What a verdict asks about and a dep holds, a build reads. */
  lemma HeldReadIsCaptured(sets: Sets, op: OpMeta, key: Option<Key>, d: Cell)
    requires d.asset in op.deps && d.key in Consulted(sets, op.maps, d.asset, key)
    requires d.key.Some? <==> d.asset in sets
    requires d.key.Some? ==> d.key.value in sets[d.asset]
    ensures Captures(sets, op, key, d)
  {
    if Mapped(sets, op.maps, d.asset) {
      var r := Resolve(MappingOf(op.maps, d.asset), key, sets[d.asset]);
      MappedWithin(MappingOf(op.maps, d.asset), key, sets[d.asset]);
      var all := r.keys + r.missing;
      var i :| 0 <= i < |Somes(all)| && Somes(all)[i] == d.key;
      assert all[i] == d.key.value && all[i] in all;
    }
  }

  // ----------------------------------------------------------- one target

  /** A plan for one target, the run of it, and the target cell it is judged at. */
  ghost predicate OneTargetBuild(reg: Registry, sets: Sets, start: Mats, want: set<Name>, named: map<Name, seq<Key>>,
                                 plan: BuildPlan, root: Cell)
    requires reg.Valid() && SetsFor(reg, sets)
  {
    && Plans(reg, sets, start, want, [root.asset], named, plan) && ClosedUp(reg, want, [])
    && named.Keys <= {root.asset}
    && WellKeyed(reg, sets, root) && PlanCell(reg, plan, root)
    && forall c :: c in Cone(reg, sets, root) ==> c.asset in reg.byName && Reliable(reg, sets, start, c)
  }

  lemma SourceFresh(reg: Registry, sets: Sets, mats: Mats, c: Cell)
    requires reg.Valid() && reg.IsSource(c.asset) && c.asset in reg.byName && c in mats
    ensures Fresh(reg, sets, mats, c)
  {
    assert reg.ValidMeta(reg.byName[c.asset]);
  }

  lemma ReadOfPlanned(reg: Registry, sets: Sets, start: Mats, want: set<Name>, named: map<Name, seq<Key>>,
                      plan: BuildPlan, root: Cell, c: Cell, d: Cell)
    requires reg.Valid() && SetsFor(reg, sets) && OneTargetBuild(reg, sets, start, want, named, plan, root)
    requires c in Cone(reg, sets, root) && c.asset in reg.byName && WellKeyed(reg, sets, c) && PlanCell(reg, plan, c)
    requires ReadsCell(reg, sets, c, d) && d.asset in reg.byName && !reg.IsSource(d.asset) && WellKeyed(reg, sets, d)
    ensures Covered(reg, sets, start, plan, d)
  {
    var op :| op in plan.ops && op in reg.byOp && OpCell(reg, plan, op, c);
    var o := reg.Op(op);
    assert reg.ValidOp(o) && Makes(o, reg.Meta(c.asset));
    assert Readable(sets, reg.Meta(c.asset).maps, d);
    HeldReadIsCaptured(sets, o, c.key, d);
    DemandClosed(reg, sets, start, want, [root.asset], named, plan, op, c, d);
  }

  lemma CoveredPlannedOrFresh(reg: Registry, sets: Sets, mats: Mats, plan: BuildPlan, d: Cell)
    requires reg.Valid() && SetsFor(reg, sets) && WellKeyed(reg, sets, d) && Covered(reg, sets, mats, plan, d)
    requires Reliable(reg, sets, mats, d) && (d.key.Some? ==> d.key.value in sets[d.asset])
    ensures PlanCell(reg, plan, d) || Fresh(reg, sets, mats, d)
  {
    if d.key.Some? {
      ReliableBuildable(reg, sets, mats, d);
    }
  }

  lemma ReadSettled(reg: Registry, sets: Sets, start: Mats, want: set<Name>, named: map<Name, seq<Key>>,
                    plan: BuildPlan, root: Cell, c: Cell, d: Cell)
    requires reg.Valid() && SetsFor(reg, sets) && OneTargetBuild(reg, sets, start, want, named, plan, root)
    requires c in Cone(reg, sets, root) && c.asset in reg.byName && WellKeyed(reg, sets, c)
    requires PlanCell(reg, plan, c) || Fresh(reg, sets, start, c)
    requires ReadsCell(reg, sets, c, d) && d in Cone(reg, sets, root) && d.asset in reg.byName
    requires WellKeyed(reg, sets, d)
    ensures PlanCell(reg, plan, d) || Fresh(reg, sets, start, d)
  {
    if reg.IsSource(d.asset) {
      assert Reliable(reg, sets, start, d);
      SourceFresh(reg, sets, start, d);
    } else if PlanCell(reg, plan, c) {
      assert Reliable(reg, sets, start, c);
      ReadOfPlanned(reg, sets, start, want, named, plan, root, c, d);
      CoveredPlannedOrFresh(reg, sets, start, plan, d);
    }
  }

  lemma {:induction false} PlannedOrFresh(reg: Registry, sets: Sets, start: Mats, want: set<Name>,
                                          named: map<Name, seq<Key>>, plan: BuildPlan, root: Cell, p: seq<Cell>)
    requires reg.Valid() && SetsFor(reg, sets) && OneTargetBuild(reg, sets, start, want, named, plan, root)
    requires ReadPath(reg, sets, p) && p[0] == root
    ensures PlanCell(reg, plan, p[|p| - 1]) || Fresh(reg, sets, start, p[|p| - 1])
  {
    if |p| > 1 {
      var q, c, d := p[..|p| - 1], p[|p| - 2], p[|p| - 1];
      PathPrefix(reg, sets, p);
      PlannedOrFresh(reg, sets, start, want, named, plan, root, q);
      PathInCone(reg, sets, p);
      PathInCone(reg, sets, q);
      ReadSettled(reg, sets, start, want, named, plan, root, c, d);
    }
  }

  lemma FreshKeyIsTarget(reg: Registry, sets: Sets, start: Mats, want: set<Name>, targets: seq<Name>,
                         named: map<Name, seq<Key>>, plan: BuildPlan, op: Name, d: Cell)
    requires reg.Valid() && SetsFor(reg, sets) && Plans(reg, sets, start, want, targets, named, plan)
    requires ClosedUp(reg, want, [])
    requires op in plan.ops && op in reg.byOp && OpCell(reg, plan, op, d) && d.asset in reg.byName && d.asset in sets
    requires d.key.Some? && d.key.value in sets[d.asset] && Fresh(reg, sets, start, d)
    ensures d.asset in targets || d.asset in named
  {
    if d.asset !in targets && d.asset !in named {
      var reader, at := DemandMinimal(reg, sets, start, want, targets, named, plan, op, d);
    }
  }

  lemma FreshWholeIsTarget(reg: Registry, sets: Sets, start: Mats, want: set<Name>, targets: seq<Name>, ops: seq<Name>,
                           o: OpMeta, d: Cell)
    requires reg.Valid() && SetsFor(reg, sets) && PlannedOps(reg, sets, start, want, targets, ops)
    requires o in reg.ops && o.name in ops && o.produces == [d.asset]
    requires d.asset in reg.byName && d.asset !in sets && d.key.None? && Fresh(reg, sets, start, d)
    ensures d.asset in targets
  {
    assert PlannedOp(reg, sets, start, want, targets, o);
    var a :| a in o.produces && Asks(reg, sets, start, want, targets, a);
    assert a == d.asset;
  }

  // The op making an asset makes nothing else.
  ghost predicate MadeAlone(reg: Registry, a: Name)
    requires reg.OpsIndexed()
  {
    reg.OpFor(a).produces == [a]
  }

  /** Where an op makes one asset, the only fresh cells a plan builds are of the assets it was asked for. */
  lemma FreshPlannedIsTarget(reg: Registry, sets: Sets, start: Mats, want: set<Name>, targets: seq<Name>,
                             named: map<Name, seq<Key>>, plan: BuildPlan, d: Cell)
    requires reg.Valid() && SetsFor(reg, sets) && WellKeyed(reg, sets, d) && (d.key.None? ==> MadeAlone(reg, d.asset))
    requires Plans(reg, sets, start, want, targets, named, plan) && ClosedUp(reg, want, [])
    requires PlanCell(reg, plan, d) && Fresh(reg, sets, start, d) && (d.key.Some? ==> d.key.value in sets[d.asset])
    ensures d.asset in targets || d.asset in named
  {
    var op :| op in plan.ops && op in reg.byOp && OpCell(reg, plan, op, d);
    if d.key.Some? {
      FreshKeyIsTarget(reg, sets, start, want, targets, named, plan, op, d);
    } else {
      assert reg.ValidOp(reg.Op(op)) && Makes(reg.Op(op), reg.Meta(d.asset));
      FreshWholeIsTarget(reg, sets, start, want, targets, plan.ops, reg.Op(op), d);
    }
  }

  /** An unpartitioned target is always built, and a partitioned one at every named key that can be. */
  lemma TargetIsPlanned(reg: Registry, sets: Sets, start: Mats, want: set<Name>, named: map<Name, seq<Key>>,
                        plan: BuildPlan, root: Cell)
    requires reg.Valid() && SetsFor(reg, sets) && WellKeyed(reg, sets, root) && !reg.IsSource(root.asset)
    requires Plans(reg, sets, start, want, [root.asset], named, plan) && ClosedUp(reg, want, []) && root.asset in want
    requires root.key.Some? ==> root.asset in named && root.key.value in named[root.asset]
    requires root.key.Some? ==> Buildable(sets, reg.Meta(root.asset).deps, reg.Meta(root.asset).maps, root.key.value)
    ensures PlanCell(reg, plan, root)
  {
    ProducerMakes(reg, root.asset);
    var o := reg.OpFor(root.asset);
    assert Asks(reg, sets, start, want, [root.asset], root.asset);
    assert PlannedOp(reg, sets, start, want, [root.asset], o);
    if root.key.Some? {
      OwnOp(reg, sets, root.asset);
      var keys := PlansWith(reg, sets, start, want, [root.asset], named, plan);
      FanOutIsTargets(reg, sets, start, want, [root.asset], named, plan, keys, o);
    }
    assert OpCell(reg, plan, o.name, root);
  }

  lemma ConeUnclaimedFresh(reg: Registry, sets: Sets, start: Mats, want: set<Name>, named: map<Name, seq<Key>>,
                           plan: BuildPlan, root: Cell)
    requires reg.Valid() && SetsFor(reg, sets) && OneTargetBuild(reg, sets, start, want, named, plan, root)
    ensures UnclaimedFresh(reg, sets, plan, start, Cone(reg, sets, root))
    ensures ClaimsReadable(reg, sets, plan, Cone(reg, sets, root))
  {
    ConeIsRegion(reg, sets, root);
    forall e | e in Cone(reg, sets, root) && !PlanCell(reg, plan, e) ensures Fresh(reg, sets, start, e) {
      var p :| ReadPath(reg, sets, p) && p[0] == root && p[|p| - 1] == e;
      PlannedOrFresh(reg, sets, start, want, named, plan, root, p);
    }
    forall c, d | c in Cone(reg, sets, root) && ReadsCell(reg, sets, c, d)
      ensures Readable(sets, reg.Meta(c.asset).maps, d)
    {
      assert Reliable(reg, sets, start, c);
    }
  }

  /**
   * Convergence for one target: whatever order its ops run in and whatever
   * fingerprints they record, every run leaves the target and everything it
   * reads, however far upstream, fresh exactly when no cell of that cone which
   * the plan leaves alone reads one it builds.
   */
  lemma TargetConvergesIff(reg: Registry, sets: Sets, start: Mats, want: set<Name>, named: map<Name, seq<Key>>,
                           plan: BuildPlan, insts: set<Inst>, root: Cell)
    requires reg.Valid() && SetsFor(reg, sets) && OneTargetBuild(reg, sets, start, want, named, plan, root)
    requires Instances(reg, plan, insts)
    ensures AlwaysFresh(reg, sets, insts, start, Cone(reg, sets, root)) <==>
              ReadersClaimed(reg, sets, plan, Cone(reg, sets, root))
  {
    ConeIsRegion(reg, sets, root);
    ConeUnclaimedFresh(reg, sets, start, want, named, plan, root);
    PlanConvergesIff(reg, sets, start, plan, insts, Cone(reg, sets, root));
  }

  // Upstream of the root, an unpartitioned asset is made by an op that makes nothing else.
  ghost predicate ConeMadeAlone(reg: Registry, sets: Sets, root: Cell)
    requires reg.Valid()
  {
    forall d :: d in Cone(reg, sets, root) && d.asset != root.asset && d.key.None? && !reg.IsSource(d.asset) ==>
      MadeAlone(reg, d.asset)
  }

  lemma LeftAloneReadsNoTarget(reg: Registry, sets: Sets, start: Mats, want: set<Name>, named: map<Name, seq<Key>>,
                               plan: BuildPlan, root: Cell, e: Cell, d: Cell)
    requires reg.Valid() && SetsFor(reg, sets) && OneTargetBuild(reg, sets, start, want, named, plan, root)
    requires ConeMadeAlone(reg, sets, root) && d in Cone(reg, sets, root)
    requires WellKeyed(reg, sets, e) && reg.byName[e.asset] <= reg.byName[root.asset] && Fresh(reg, sets, start, e)
    requires ReadsCell(reg, sets, e, d)
    ensures !PlanCell(reg, plan, d)
  {
    ReadsRank(reg, sets, e, d);
    ReadsWellKeyed(reg, sets, e, d);
    assert EdgeHolds(reg, sets, start, e, d);
    if PlanCell(reg, plan, d) {
      ClaimedIsDerived(reg, plan, d);
      FreshPlannedIsTarget(reg, sets, start, want, [root.asset], named, plan, d);
      assert false;
    }
  }

  lemma ClaimedIsDerived(reg: Registry, plan: BuildPlan, d: Cell)
    requires reg.Valid() && PlanCell(reg, plan, d)
    ensures d.asset in reg.byName && !reg.IsSource(d.asset)
  {
    var op :| op in plan.ops && op in reg.byOp && OpCell(reg, plan, op, d);
    assert reg.ValidOp(reg.Op(op)) && Makes(reg.Op(op), reg.Meta(d.asset));
  }

  /** Where no op upstream of the target makes a second asset, every run of its plan leaves its whole cone fresh. */
  lemma TargetConverges(reg: Registry, sets: Sets, start: Mats, want: set<Name>, named: map<Name, seq<Key>>,
                        plan: BuildPlan, insts: set<Inst>, root: Cell)
    requires reg.Valid() && SetsFor(reg, sets) && OneTargetBuild(reg, sets, start, want, named, plan, root)
    requires ConeMadeAlone(reg, sets, root) && Instances(reg, plan, insts)
    ensures AlwaysFresh(reg, sets, insts, start, Cone(reg, sets, root))
  {
    var region := Cone(reg, sets, root);
    ConeIsRegion(reg, sets, root);
    ConeUnclaimedFresh(reg, sets, start, want, named, plan, root);
    forall e, d | e in region && ReadsCell(reg, sets, e, d) && !PlanCell(reg, plan, e) ensures !PlanCell(reg, plan, d) {
      assert d in region;
      LeftAloneReadsNoTarget(reg, sets, start, want, named, plan, root, e, d);
    }
    TargetConvergesIff(reg, sets, start, want, named, plan, insts, root);
  }

  /**
   * From the planner to the store: what the planner makes for one cell, asked
   * for by name and by key where it has keys, fans out into instances that have a
   * complete run, claims that cell, and converges on its cone exactly when the
   * cone's readers of what it claims are claimed.
   */
  lemma PlannerConverges(reg: Registry, sets: Sets, start: Mats, want: set<Name>, named: map<Name, seq<Key>>,
                         plan: BuildPlan, root: Cell) returns (insts: set<Inst>, end: Mats)
    requires reg.Valid() && SetsFor(reg, sets) && TargetsOk(reg, [root.asset])
    requires forall n :: n in want <==> Wanted(reg, [root.asset], n)
    requires Plans(reg, sets, start, want, [root.asset], named, plan)
    requires WellKeyed(reg, sets, root) && named.Keys <= {root.asset}
    requires root.key.Some? ==> root.asset in named && root.key.value in named[root.asset]
    requires forall c :: c in Cone(reg, sets, root) ==> c.asset in reg.byName && Reliable(reg, sets, start, c)
    ensures Instances(reg, plan, insts) && Completes(reg, sets, insts, start, end) && PlanCell(reg, plan, root)
    ensures AlwaysFresh(reg, sets, insts, start, Cone(reg, sets, root)) <==>
              ReadersClaimed(reg, sets, plan, Cone(reg, sets, root))
    ensures ConeMadeAlone(reg, sets, root) ==> AlwaysFresh(reg, sets, insts, start, Cone(reg, sets, root))
  {
    insts := PlanFansOut(reg, plan);
    end := RunToEnd(reg, sets, insts, start, "");
    WantedIsClosed(reg, [root.asset], want);
    RootWanted(reg, sets, root);
    assert root.asset in [root.asset];
    if root.key.Some? {
      ReliableBuildable(reg, sets, start, root);
    }
    TargetIsPlanned(reg, sets, start, want, named, plan, root);
    TargetConvergesIff(reg, sets, start, want, named, plan, insts, root);
    if ConeMadeAlone(reg, sets, root) {
      TargetConverges(reg, sets, start, want, named, plan, insts, root);
    }
  }

  lemma RootWanted(reg: Registry, sets: Sets, root: Cell)
    requires reg.Valid() && root.asset in reg.byName
    ensures Wanted(reg, [root.asset], root.asset) && root in Cone(reg, sets, root)
  {
    var p := [root.asset];
    assert DepPath(reg, p) && p[0] in [root.asset] && p[|p| - 1] == root.asset;
    assert ReadPath(reg, sets, [root]) && [root][0] == root && [root][|[root]| - 1] == root;
  }

  // ----------------------------------------------------------- everything stale

  // Derived, by an op that makes some stale asset.
  ghost predicate Owing(reg: Registry, start: Mats, a: Name)
    requires reg.Valid()
  {
    a in reg.byName && !reg.IsSource(a)
    && exists b :: b in reg.OpFor(a).produces && b in reg.byName && !AssetFresh(reg, map[], start, b)
  }

  ghost function Everything(reg: Registry): iset<Cell> {
    iset c: Cell | c.asset in reg.byName && c.key.None?
  }

  lemma ClaimedOwes(reg: Registry, start: Mats, targets: seq<Name>, ops: seq<Name>, o: OpMeta, a: Name)
    requires reg.Valid() && PlannedOps(reg, map[], start, reg.byName.Keys, targets, ops)
    requires AllStale(reg, map[], start, targets)
    requires o in reg.ops && o.name in ops && a in o.produces && a in reg.byName && !reg.IsSource(a)
    ensures Owing(reg, start, a)
  {
    assert reg.ValidOp(o) && Makes(o, reg.Meta(a)) && reg.OpFor(a) == o;
    assert PlannedOp(reg, map[], start, reg.byName.Keys, targets, o);
    var b :| b in o.produces && Asks(reg, map[], start, reg.byName.Keys, targets, b);
    assert Makes(o, reg.Meta(b));
  }

  lemma OwingIsPlanned(reg: Registry, start: Mats, targets: seq<Name>, ops: seq<Name>, a: Name)
    requires reg.Valid() && PlannedOps(reg, map[], start, reg.byName.Keys, targets, ops)
    requires AllStale(reg, map[], start, targets)
    requires Owing(reg, start, a)
    ensures reg.OpFor(a).name in ops
  {
    ProducerMakes(reg, a);
    var o := reg.OpFor(a);
    var b :| b in o.produces && b in reg.byName && !AssetFresh(reg, map[], start, b);
    assert reg.ValidOp(o) && Makes(o, reg.Meta(b));
    assert Asks(reg, map[], start, reg.byName.Keys, targets, b);
    assert PlannedOp(reg, map[], start, reg.byName.Keys, targets, o);
  }

  lemma WholeOpCell(reg: Registry, plan: BuildPlan, a: Name)
    requires reg.Valid() && SetsFor(reg, map[]) && a in reg.byName && !reg.IsSource(a)
    ensures PlanCell(reg, plan, Cell(a, None)) <==> reg.OpFor(a).name in plan.ops
  {
    ProducerMakes(reg, a);
    var o := reg.OpFor(a);
    if o.name in plan.ops {
      assert OpCell(reg, plan, o.name, Cell(a, None));
    }
    if PlanCell(reg, plan, Cell(a, None)) {
      var op :| op in plan.ops && op in reg.byOp && OpCell(reg, plan, op, Cell(a, None));
      assert reg.ValidOp(reg.Op(op)) && Makes(reg.Op(op), reg.Meta(a));
    }
  }

  /** Without partitions, a plan for everything stale builds what its ops owe. */
  lemma ClaimedIsOwing(reg: Registry, start: Mats, targets: seq<Name>, plan: BuildPlan, a: Name)
    requires reg.Valid() && SetsFor(reg, map[]) && a in reg.byName && AllStale(reg, map[], start, targets)
    requires Plans(reg, map[], start, reg.byName.Keys, targets, map[], plan)
    ensures PlanCell(reg, plan, Cell(a, None)) <==> Owing(reg, start, a)
  {
    if PlanCell(reg, plan, Cell(a, None)) {
      ClaimedIsDerived(reg, plan, Cell(a, None));
    }
    if !reg.IsSource(a) {
      WholeOpCell(reg, plan, a);
      ProducerMakes(reg, a);
      if reg.OpFor(a).name in plan.ops {
        ClaimedOwes(reg, start, targets, plan.ops, reg.OpFor(a), a);
      }
      if Owing(reg, start, a) {
        OwingIsPlanned(reg, start, targets, plan.ops, a);
      }
    }
  }

  lemma UnclaimedIsProbed(reg: Registry, start: Mats, targets: seq<Name>, plan: BuildPlan, a: Name)
    requires reg.Valid() && SetsFor(reg, map[]) && a in reg.byName && AllStale(reg, map[], start, targets)
    requires Plans(reg, map[], start, reg.byName.Keys, targets, map[], plan)
    requires !PlanCell(reg, plan, Cell(a, None))
    ensures Fresh(reg, map[], start, Cell(a, None)) <==> (reg.IsSource(a) ==> Cell(a, None) in start)
  {
    ClaimedIsOwing(reg, start, targets, plan, a);
    if reg.IsSource(a) {
      if Cell(a, None) in start {
        SourceFresh(reg, map[], start, Cell(a, None));
      }
    } else {
      ProducerMakes(reg, a);
      assert a in reg.OpFor(a).produces;
    }
  }

  // Every source has been probed.
  ghost predicate Probed(reg: Registry, start: Mats) {
    forall a :: reg.IsSource(a) && a in reg.byName ==> Cell(a, None) in start
  }

  /** Whatever reads an asset that will be rebuilt is rebuilt too. */
  ghost predicate ReadersOwing(reg: Registry, start: Mats)
    requires reg.Valid()
  {
    forall a, b :: a in reg.byName && b in reg.Meta(a).deps && Owing(reg, start, b) ==> Owing(reg, start, a)
  }

  ghost predicate ClaimsOwing(reg: Registry, start: Mats, plan: BuildPlan)
    requires reg.Valid()
  {
    forall a :: a in reg.byName ==> (PlanCell(reg, plan, Cell(a, None)) <==> Owing(reg, start, a))
  }

  lemma OwingReaders(reg: Registry, start: Mats, plan: BuildPlan)
    requires reg.Valid() && ClaimsOwing(reg, start, plan) && ReadersClaimed(reg, map[], plan, Everything(reg))
    ensures ReadersOwing(reg, start)
  {
    forall a, b | a in reg.byName && b in reg.Meta(a).deps && Owing(reg, start, b) ensures Owing(reg, start, a) {
      var c, d := Cell(a, None), Cell(b, None);
      assert ReadsCell(reg, map[], c, d) && c in Everything(reg);
    }
  }

  lemma OwingClaimed(reg: Registry, start: Mats, plan: BuildPlan)
    requires reg.Valid() && ClaimsOwing(reg, start, plan) && ReadersOwing(reg, start)
    ensures ReadersClaimed(reg, map[], plan, Everything(reg))
  {
    forall c, d | c in Everything(reg) && ReadsCell(reg, map[], c, d) && PlanCell(reg, plan, d)
      ensures PlanCell(reg, plan, c)
    {
      ReadsRank(reg, map[], c, d);
      assert d == Cell(d.asset, None) && c == Cell(c.asset, None);
    }
  }

  /**
   * Running the plan for everything stale leaves every asset fresh, in every
   * order and whatever fingerprints come out, exactly when every source has been
   * probed and whatever reads an asset that will be rebuilt is rebuilt too.
   */
  lemma AllConvergesIff(reg: Registry, start: Mats, targets: seq<Name>, plan: BuildPlan, insts: set<Inst>)
    requires reg.Valid() && SetsFor(reg, map[]) && AllStale(reg, map[], start, targets)
    requires Plans(reg, map[], start, reg.byName.Keys, targets, map[], plan)
    requires Instances(reg, plan, insts)
    ensures AlwaysFresh(reg, map[], insts, start, Everything(reg)) <==> Probed(reg, start) && ReadersOwing(reg, start)
  {
    RegionOfAll(reg);
    forall a | a in reg.byName ensures PlanCell(reg, plan, Cell(a, None)) <==> Owing(reg, start, a) {
      ClaimedIsOwing(reg, start, targets, plan, a);
    }
    if ReadersClaimed(reg, map[], plan, Everything(reg)) {
      OwingReaders(reg, start, plan);
    }
    if ReadersOwing(reg, start) {
      OwingClaimed(reg, start, plan);
    }
    PlanConvergesIff(reg, map[], start, plan, insts, Everything(reg));
    forall a | a in reg.byName && !PlanCell(reg, plan, Cell(a, None))
      ensures Fresh(reg, map[], start, Cell(a, None)) <==> (reg.IsSource(a) ==> Cell(a, None) in start)
    {
      UnclaimedIsProbed(reg, start, targets, plan, a);
    }
    ProbedIffUnclaimedFresh(reg, start, plan);
  }

  lemma ProbedIffUnclaimedFresh(reg: Registry, start: Mats, plan: BuildPlan)
    requires reg.Valid() && SetsFor(reg, map[])
    requires forall a :: a in reg.byName && !PlanCell(reg, plan, Cell(a, None)) ==>
               (Fresh(reg, map[], start, Cell(a, None)) <==> (reg.IsSource(a) ==> Cell(a, None) in start))
    ensures UnclaimedFresh(reg, map[], plan, start, Everything(reg)) <==> Probed(reg, start)
    ensures ClaimsReadable(reg, map[], plan, Everything(reg))
  {
    forall a | a in reg.byName && reg.IsSource(a) ensures !PlanCell(reg, plan, Cell(a, None)) {
      if PlanCell(reg, plan, Cell(a, None)) {
        ClaimedIsDerived(reg, plan, Cell(a, None));
      }
    }
    forall c | c in Everything(reg) ensures c == Cell(c.asset, None) {
    }
    if UnclaimedFresh(reg, map[], plan, start, Everything(reg)) {
      forall a | reg.IsSource(a) && a in reg.byName ensures Cell(a, None) in start {
        assert Cell(a, None) in Everything(reg);
      }
    }
    forall c, d | c in Everything(reg) && ReadsCell(reg, map[], c, d)
      ensures Readable(map[], reg.Meta(c.asset).maps, d)
    {
    }
  }

  /**
   * Where no op makes a second asset, with every source probed, a build of
   * everything stale leaves everything fresh.
   */
  lemma AllConverges(reg: Registry, start: Mats, targets: seq<Name>, plan: BuildPlan, insts: set<Inst>)
    requires reg.Valid() && SetsFor(reg, map[]) && AllStale(reg, map[], start, targets) && Probed(reg, start)
    requires Plans(reg, map[], start, reg.byName.Keys, targets, map[], plan)
    requires Instances(reg, plan, insts)
    requires forall a :: a in reg.byName && !reg.IsSource(a) ==> MadeAlone(reg, a)
    ensures AlwaysFresh(reg, map[], insts, start, Everything(reg))
  {
    forall a, b | a in reg.byName && b in reg.Meta(a).deps && Owing(reg, start, b) ensures Owing(reg, start, a) {
      StaleReadIsStale(reg, start, a, b);
    }
    AllConvergesIff(reg, start, targets, plan, insts);
  }

  lemma StaleReadIsStale(reg: Registry, start: Mats, a: Name, b: Name)
    requires reg.Valid() && a in reg.byName && b in reg.Meta(a).deps && Owing(reg, start, b) && MadeAlone(reg, b)
    ensures Owing(reg, start, a)
  {
    var c, d := Cell(a, None), Cell(b, None);
    ReadsRank(reg, map[], c, d);
    assert ReadsCell(reg, map[], c, d);
    assert !Fresh(reg, map[], start, c);
    assert reg.ValidMeta(reg.byName[a]);
    ProducerMakes(reg, a);
  }

  lemma RegionOfAll(reg: Registry)
    requires reg.Valid() && SetsFor(reg, map[])
    ensures Region(reg, map[], Everything(reg))
  {
    forall c, d | c in Everything(reg) && ReadsCell(reg, map[], c, d) ensures d in Everything(reg) {
      ReadsRank(reg, map[], c, d);
    }
  }
}
