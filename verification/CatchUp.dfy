/**
 * Building everything stale, partitions and all (src/asset.rs): when one plan for
 * it leaves nothing stale.
 */
module CatchUp {
  import opened Prelude
  import opened Assets
  import opened Freshness
  import opened Builds
  import opened Plan
  import opened Demand
  import opened Execution
  import opened Convergence
  import opened Limits

  /** The cells there are: each unpartitioned asset, and each key its set has of a partitioned one. */
  ghost predicate Held(reg: Registry, sets: Sets, c: Cell)
    requires reg.NamesIndexed()
  {
    WellKeyed(reg, sets, c) && (c.key.Some? ==> c.key.value in sets[c.asset])
  }

  ghost function AllHeld(reg: Registry, sets: Sets): iset<Cell>
    requires reg.NamesIndexed()
  {
    iset c | Held(reg, sets, c)
  }

  /** Every stale key there is of a derived asset is one the plan will build. */
  ghost predicate StaleKeysClaimed(reg: Registry, sets: Sets, start: Mats, plan: BuildPlan)
    requires reg.Valid()
  {
    forall a, k :: a in sets && a in reg.byName && k in sets[a] && !KeyFresh(reg, sets, start, a, k) ==>
      PlanCell(reg, plan, Cell(a, Some(k)))
  }

  ghost predicate StaleKeysBuildable(reg: Registry, sets: Sets, start: Mats)
    requires reg.Valid()
  {
    forall a, k :: a in sets && a in reg.byName && k in sets[a] && !KeyFresh(reg, sets, start, a, k) ==>
      Buildable(sets, reg.Meta(a).deps, reg.Meta(a).maps, k)
  }

  // ----------------------------------------------------------- what the plan leaves alone

  lemma StaleWholeClaimed(reg: Registry, sets: Sets, start: Mats, targets: seq<Name>, plan: BuildPlan, a: Name)
    requires reg.Valid() && SetsFor(reg, sets) && a in reg.byName && !reg.IsSource(a) && a !in sets
    requires PlannedOps(reg, sets, start, reg.byName.Keys, targets, plan.ops) && !Fresh(reg, sets, start, Cell(a, None))
    ensures PlanCell(reg, plan, Cell(a, None))
  {
    ProducerMakes(reg, a);
    var o := reg.OpFor(a);
    assert Asks(reg, sets, start, reg.byName.Keys, targets, a);
    assert PlannedOp(reg, sets, start, reg.byName.Keys, targets, o);
    assert reg.ValidOp(o);
    assert OpCell(reg, plan, o.name, Cell(a, None));
  }

  /**
   * What a plan for everything stale leaves alone is fresh exactly when sources
   * are probed and no stale key is left out.
   */
  lemma UnclaimedFreshIff(reg: Registry, sets: Sets, start: Mats, targets: seq<Name>, plan: BuildPlan)
    requires reg.Valid() && SetsFor(reg, sets) && PlannedOps(reg, sets, start, reg.byName.Keys, targets, plan.ops)
    ensures UnclaimedFresh(reg, sets, plan, start, AllHeld(reg, sets)) <==>
              Probed(reg, start) && StaleKeysClaimed(reg, sets, start, plan)
  {
    if UnclaimedFresh(reg, sets, plan, start, AllHeld(reg, sets)) {
      UnclaimedFreshOnly(reg, sets, start, plan);
    }
    if Probed(reg, start) && StaleKeysClaimed(reg, sets, start, plan) {
      forall c | c in AllHeld(reg, sets) && !PlanCell(reg, plan, c)
        ensures c.asset in reg.byName && Fresh(reg, sets, start, c)
      {
        UnclaimedIsFresh(reg, sets, start, targets, plan, c);
      }
    }
  }

  lemma SourceHeld(reg: Registry, sets: Sets, plan: BuildPlan, a: Name)
    requires reg.Valid() && SetsFor(reg, sets) && a in reg.byName && reg.IsSource(a)
    ensures Held(reg, sets, Cell(a, None)) && !PlanCell(reg, plan, Cell(a, None))
  {
    assert reg.ValidMeta(reg.byName[a]);
    if PlanCell(reg, plan, Cell(a, None)) {
      ClaimedIsDerived(reg, plan, Cell(a, None));
    }
  }

  lemma UnclaimedFreshOnly(reg: Registry, sets: Sets, start: Mats, plan: BuildPlan)
    requires reg.Valid() && SetsFor(reg, sets) && UnclaimedFresh(reg, sets, plan, start, AllHeld(reg, sets))
    ensures Probed(reg, start) && StaleKeysClaimed(reg, sets, start, plan)
  {
    forall a | reg.IsSource(a) && a in reg.byName ensures Cell(a, None) in start {
      SourceHeld(reg, sets, plan, a);
      assert Cell(a, None) in AllHeld(reg, sets);
    }
    forall a, k | a in sets && a in reg.byName && k in sets[a] && !KeyFresh(reg, sets, start, a, k)
      ensures PlanCell(reg, plan, Cell(a, Some(k)))
    {
      assert Cell(a, Some(k)) in AllHeld(reg, sets);
    }
  }

  lemma UnclaimedIsFresh(reg: Registry, sets: Sets, start: Mats, targets: seq<Name>, plan: BuildPlan, c: Cell)
    requires reg.Valid() && SetsFor(reg, sets) && PlannedOps(reg, sets, start, reg.byName.Keys, targets, plan.ops)
    requires Probed(reg, start) && StaleKeysClaimed(reg, sets, start, plan) && Held(reg, sets, c)
    requires !PlanCell(reg, plan, c)
    ensures Fresh(reg, sets, start, c)
  {
    if c.key.Some? {
      assert KeyFresh(reg, sets, start, c.asset, c.key.value);
    } else {
      assert c == Cell(c.asset, None);
      if reg.IsSource(c.asset) {
        SourceFresh(reg, sets, start, c);
      } else if !Fresh(reg, sets, start, c) {
        StaleWholeClaimed(reg, sets, start, targets, plan, c.asset);
      }
    }
  }

  // ----------------------------------------------------------- the exact condition

  // A fresh cell reads only cells there are.
  lemma FreshReadsHeld(reg: Registry, sets: Sets, mats: Mats, c: Cell, d: Cell)
    requires reg.Valid() && SetsFor(reg, sets) && WellKeyed(reg, sets, c) && Fresh(reg, sets, mats, c)
    requires ReadsCell(reg, sets, c, d)
    ensures Held(reg, sets, d)
  {
    ReadsWellKeyed(reg, sets, c, d);
    assert EdgeHolds(reg, sets, mats, c, d);
  }

  lemma ReadableIsHeld(reg: Registry, sets: Sets, c: Cell, d: Cell)
    requires reg.Valid() && SetsFor(reg, sets) && WellKeyed(reg, sets, c) && ReadsCell(reg, sets, c, d)
    requires Readable(sets, reg.Meta(c.asset).maps, d)
    ensures Held(reg, sets, d)
  {
    ReadsWellKeyed(reg, sets, c, d);
  }

  lemma HeldRegionIfReadable(reg: Registry, sets: Sets, start: Mats, plan: BuildPlan)
    requires reg.Valid() && SetsFor(reg, sets) && UnclaimedFresh(reg, sets, plan, start, AllHeld(reg, sets))
    requires ClaimsReadable(reg, sets, plan, AllHeld(reg, sets))
    ensures Region(reg, sets, AllHeld(reg, sets))
  {
    forall c, d | c in AllHeld(reg, sets) && ReadsCell(reg, sets, c, d) ensures d in AllHeld(reg, sets) {
      if PlanCell(reg, plan, c) {
        ReadableIsHeld(reg, sets, c, d);
      } else {
        FreshReadsHeld(reg, sets, start, c, d);
      }
    }
  }

  lemma HeldRegionIfFresh(reg: Registry, sets: Sets, mats: Mats)
    requires reg.Valid() && SetsFor(reg, sets) && AllFresh(reg, sets, mats, AllHeld(reg, sets))
    ensures Region(reg, sets, AllHeld(reg, sets))
  {
    forall c, d | c in AllHeld(reg, sets) && ReadsCell(reg, sets, c, d) ensures d in AllHeld(reg, sets) {
      FreshReadsHeld(reg, sets, mats, c, d);
    }
  }

  /**
   * Every run of the plan for everything stale leaves every cell there is fresh
   * exactly when every source has been probed, no stale key is left out, what is
   * built is readable, and whatever reads a cell that is built is built too.
   */
  lemma CatchUpIff(reg: Registry, sets: Sets, start: Mats, targets: seq<Name>, plan: BuildPlan, insts: set<Inst>)
    requires reg.Valid() && SetsFor(reg, sets) && Plans(reg, sets, start, reg.byName.Keys, targets, map[], plan)
    requires Instances(reg, plan, insts)
    ensures AlwaysFresh(reg, sets, insts, start, AllHeld(reg, sets)) <==>
            && Probed(reg, start) && StaleKeysClaimed(reg, sets, start, plan)
            && ClaimsReadable(reg, sets, plan, AllHeld(reg, sets))
            && ReadersClaimed(reg, sets, plan, AllHeld(reg, sets))
  {
    var region := AllHeld(reg, sets);
    UnclaimedFreshIff(reg, sets, start, targets, plan);
    if AlwaysFresh(reg, sets, insts, start, region) {
      var end := RunToEnd(reg, sets, insts, start, "");
      HeldRegionIfFresh(reg, sets, end);
      PlanConvergesIff(reg, sets, start, plan, insts, region);
    }
    if UnclaimedFresh(reg, sets, plan, start, region) && ClaimsReadable(reg, sets, plan, region) {
      HeldRegionIfReadable(reg, sets, start, plan);
      PlanConvergesIff(reg, sets, start, plan, insts, region);
    }
  }

  // ----------------------------------------------------------- within the limits

  /** No asset owes more keys than one default build takes. */
  ghost predicate WithinLimits(reg: Registry, sets: Sets, start: Mats)
    requires reg.Valid() && SetsFor(reg, sets)
  {
    forall a :: a in sets && a in reg.byName ==> |Owed(reg, sets, start, a)| <= reg.Meta(a).partitions.value.limit
  }

  lemma DerivedIfKeyed(reg: Registry, sets: Sets, a: Name)
    requires reg.Valid() && SetsFor(reg, sets) && a in sets
    ensures a in reg.byName && !reg.IsSource(a) && reg.Meta(a).partitions.Some?
  {
    assert reg.ValidMeta(reg.byName[a]);
  }

  // The fan-out of a stale asset, as what it starts from and what is demanded of it.
  lemma StaleFansOut(reg: Registry, sets: Sets, start: Mats, targets: seq<Name>, plan: BuildPlan, a: Name)
    returns (keys: map<Name, seq<Key>>, base: seq<Key>)
    requires reg.Valid() && SetsFor(reg, sets) && AllStale(reg, sets, start, targets) && a in sets && a in targets
    requires Plans(reg, sets, start, reg.byName.Keys, targets, map[], plan) && ClosedUp(reg, reg.byName.Keys, [])
    ensures a in reg.byName && !reg.IsSource(a) && a in reg.byOp && a in plan.ops && reg.Op(a).partitions.Some?
    ensures reg.Op(a).produces == [a] && reg.Meta(a).partitions.Some?
    ensures NewestStale(reg, sets, start, a, reg.Meta(a).partitions.value.limit, base)
    ensures Targets(reg, sets, start, plan.ops, keys, a, base, FanOut(plan, a))
  {
    DerivedIfKeyed(reg, sets, a);
    OwnOp(reg, sets, a);
    assert Asks(reg, sets, start, reg.byName.Keys, targets, a);
    assert PlannedOp(reg, sets, start, reg.byName.Keys, targets, reg.Op(a));
    keys := PlansWith(reg, sets, start, reg.byName.Keys, targets, map[], plan);
    FanOutIsTargets(reg, sets, start, reg.byName.Keys, targets, map[], plan, keys, reg.Op(a));
    base :| StartsFrom(reg, sets, start, targets, map[], a, base) && Targets(reg, sets, start, plan.ops, keys, a, base,
                                                                             keys[a]);
  }

  lemma StaleKeyClaimedIff(reg: Registry, sets: Sets, start: Mats, targets: seq<Name>, plan: BuildPlan, a: Name, k: Key)
    requires reg.Valid() && SetsFor(reg, sets) && AllStale(reg, sets, start, targets) && WithinLimits(reg, sets, start)
    requires Plans(reg, sets, start, reg.byName.Keys, targets, map[], plan)
    requires a in sets && a in reg.byName && k in sets[a] && !KeyFresh(reg, sets, start, a, k)
    ensures PlanCell(reg, plan, Cell(a, Some(k))) <==> Buildable(sets, reg.Meta(a).deps, reg.Meta(a).maps, k)
  {
    ClosedOverAll(reg);
    DerivedIfKeyed(reg, sets, a);
    assert !AssetFresh(reg, sets, start, a);
    var keys, base := StaleFansOut(reg, sets, start, targets, plan, a);
    DefaultCoversIff(reg, sets, start, a, reg.Meta(a).partitions.value.limit, base);
    if PlanCell(reg, plan, Cell(a, Some(k))) {
      SoleWriter(reg, plan, Cell(a, Some(k)));
    }
    if Buildable(sets, reg.Meta(a).deps, reg.Meta(a).maps, k) {
      assert Defaultable(reg, sets, start, a, k);
      assert OpCell(reg, plan, a, Cell(a, Some(k)));
    }
  }

  lemma ClosedOverAll(reg: Registry)
    requires reg.Valid()
    ensures ClosedUp(reg, reg.byName.Keys, [])
  {
    forall n, d | n in reg.byName && d in reg.Meta(n).deps ensures d in reg.byName {
      assert reg.ValidMeta(reg.byName[n]);
    }
  }

  /** Within the limits, no stale key is left out exactly when every stale key can be built. */
  lemma StaleKeysClaimedIff(reg: Registry, sets: Sets, start: Mats, targets: seq<Name>, plan: BuildPlan)
    requires reg.Valid() && SetsFor(reg, sets) && AllStale(reg, sets, start, targets) && WithinLimits(reg, sets, start)
    requires Plans(reg, sets, start, reg.byName.Keys, targets, map[], plan)
    ensures StaleKeysClaimed(reg, sets, start, plan) <==> StaleKeysBuildable(reg, sets, start)
  {
    forall a, k | a in sets && a in reg.byName && k in sets[a] && !KeyFresh(reg, sets, start, a, k)
      ensures PlanCell(reg, plan, Cell(a, Some(k))) <==> Buildable(sets, reg.Meta(a).deps, reg.Meta(a).maps, k)
    {
      StaleKeyClaimedIff(reg, sets, start, targets, plan, a, k);
    }
  }

  /**
   * So where no asset owes more than one default build takes, it comes down to
   * sources probed, stale keys all buildable, what is built readable, and readers
   * of what is built being built.
   */
  lemma CatchUpWithinLimitsIff(reg: Registry, sets: Sets, start: Mats, targets: seq<Name>, plan: BuildPlan,
                               insts: set<Inst>)
    requires reg.Valid() && SetsFor(reg, sets) && AllStale(reg, sets, start, targets) && WithinLimits(reg, sets, start)
    requires Plans(reg, sets, start, reg.byName.Keys, targets, map[], plan) && Instances(reg, plan, insts)
    ensures AlwaysFresh(reg, sets, insts, start, AllHeld(reg, sets)) <==>
            && Probed(reg, start) && StaleKeysBuildable(reg, sets, start)
            && ClaimsReadable(reg, sets, plan, AllHeld(reg, sets))
            && ReadersClaimed(reg, sets, plan, AllHeld(reg, sets))
  {
    CatchUpIff(reg, sets, start, targets, plan, insts);
    StaleKeysClaimedIff(reg, sets, start, targets, plan);
  }
}
