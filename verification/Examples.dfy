/** Small registries on which a promise of the builder fails, each a plan, a run or a store in full. */
module Examples {
  import opened Prelude
  import opened Assets
  import opened Freshness
  import opened Builds
  import opened Plan
  import Execution
  import opened Convergence

  function Derived(name: Name, deps: seq<Name>, op: Name): AssetMeta {
    AssetMeta(name, false, None, deps, map[], Some(op), None)
  }

  function Solo(name: Name, deps: seq<Name>): OpMeta {
    OpMeta(name, [name], deps, map[], None)
  }

  function Row(fp: Print, inputs: map<Name, Value>): Mat {
    Mat(fp, inputs, Null, None)
  }

  /** Without partitions, fresh is: materialized, and every dep fresh with the fingerprint recorded of it. */
  lemma PlainFresh(reg: Registry, mats: Mats, a: Name)
    requires reg.Valid() && a in reg.byName
    ensures Fresh(reg, map[], mats, Cell(a, None)) <==>
            Cell(a, None) in mats && forall dep :: dep in reg.Meta(a).deps ==> PlainEdge(reg, mats, a, dep)
  {
    var c := Cell(a, None);
    forall d | ReadsCell(reg, map[], c, d) ensures d == Cell(d.asset, None) && d.asset in reg.byName {
      ReadsRank(reg, map[], c, d);
    }
    forall dep | dep in reg.Meta(a).deps ensures ReadsCell(reg, map[], c, Cell(dep, None)) {
      assert None in Consulted(map[], reg.Meta(a).maps, dep, None);
    }
  }

  ghost predicate PlainEdge(reg: Registry, mats: Mats, a: Name, dep: Name)
    requires reg.Valid() && Cell(a, None) in mats
  {
    && dep in reg.byName && Cell(dep, None) in mats
    && AsText(Lookup(mats[Cell(a, None)].inputs, dep)) == Some(mats[Cell(dep, None)].fp)
    && Fresh(reg, map[], mats, Cell(dep, None))
  }

  /** Stale below, stale above. */
  lemma StaleAbove(reg: Registry, mats: Mats, a: Name, dep: Name)
    requires reg.Valid() && a in reg.byName && dep in reg.Meta(a).deps && dep in reg.byName
    requires !Fresh(reg, map[], mats, Cell(dep, None))
    ensures !Fresh(reg, map[], mats, Cell(a, None))
  {
    PlainFresh(reg, mats, a);
  }

  // An asset the plan leaves alone reads one it claims.
  lemma LeftAlone(reg: Registry, plan: BuildPlan, insts: set<Execution.Inst>, start: Mats, a: Name,
                  dep: Name) returns (end: Mats)
    requires reg.Valid() && a in reg.byName && dep in reg.Meta(a).deps && Instances(reg, plan, insts)
    requires !PlanCell(reg, plan, Cell(a, None)) && PlanCell(reg, plan, Cell(dep, None))
    ensures Execution.Completes(reg, map[], insts, start, end) && !Fresh(reg, map[], end, Cell(a, None))
  {
    var c, d := Cell(a, None), Cell(dep, None);
    WrittenIsClaimed(reg, plan, insts, c);
    WrittenIsClaimed(reg, plan, insts, d);
    assert None in Consulted(map[], reg.Meta(a).maps, dep, None);
    end := Execution.LeftAloneCanGoStale(reg, map[], insts, start, c, d);
  }

  // ----------------------------------------------------------- two targets with a fresh asset between

  function Chain(a: Name, b: Name, c: Name): Registry {
    Registry([Derived(a, [], a), Derived(b, [a], b), Derived(c, [b], c)],
             map[a := 0, b := 1, c := 2], [Solo(a, []), Solo(b, [a]), Solo(c, [b])], map[a := 0, b := 1, c := 2])
  }

  lemma ChainIndexed(a: Name, b: Name, c: Name)
    requires a != b && b != c && a != c
    ensures Chain(a, b, c).NamesIndexed() && Chain(a, b, c).OpsIndexed()
  {
  }

  lemma ChainMetas(a: Name, b: Name, c: Name, i: nat)
    requires a != b && b != c && a != c && i < 3
    ensures Chain(a, b, c).NamesIndexed() && Chain(a, b, c).OpsIndexed()
    ensures Chain(a, b, c).ValidMeta(i) && Chain(a, b, c).ValidOp(Chain(a, b, c).ops[i])
    ensures Chain(a, b, c).Least(Chain(a, b, c).ops[i].produces) == i
  {
    ChainIndexed(a, b, c);
    assert i == 0 || i == 1 || i == 2;
  }

  lemma ChainSorted(a: Name, b: Name, c: Name)
    requires a != b && b != c && a != c
    ensures Chain(a, b, c).OpsSorted()
  {
    var reg := Chain(a, b, c);
    forall i | 0 <= i < 3 ensures reg.Least(reg.ops[i].produces) == i {
      ChainMetas(a, b, c, i);
    }
  }

  lemma ChainValid(a: Name, b: Name, c: Name)
    requires a != b && b != c && a != c
    ensures Chain(a, b, c).Valid()
  {
    ChainIndexed(a, b, c);
    ChainSorted(a, b, c);
    var reg := Chain(a, b, c);
    forall i | 0 <= i < 3 ensures reg.ValidMeta(i) && reg.ValidOp(reg.ops[i]) {
      ChainMetas(a, b, c, i);
    }
  }

  lemma ChainPlain(a: Name, b: Name, c: Name)
    requires a != b && b != c && a != c && Chain(a, b, c).NamesIndexed()
    ensures SetsFor(Chain(a, b, c), map[])
  {
  }

  function ChainBuilt(a: Name, b: Name, c: Name): Mats {
    map[Cell(a, None) := Row("1", map[]),
        Cell(b, None) := Row("1", map[a := Text("1")]),
        Cell(c, None) := Row("1", map[b := Text("1")])]
  }

  lemma FreshAbove(reg: Registry, mats: Mats, a: Name, b: Name)
    requires reg.Valid() && a in reg.byName && b in reg.byName && reg.Meta(b).deps == [a]
    requires Fresh(reg, map[], mats, Cell(a, None)) && Cell(a, None) in mats && Cell(b, None) in mats
    requires mats[Cell(b, None)].inputs == map[a := Text(mats[Cell(a, None)].fp)]
    ensures Fresh(reg, map[], mats, Cell(b, None))
  {
    PlainFresh(reg, mats, b);
  }

  lemma ChainFresh(a: Name, b: Name, c: Name, n: Name)
    requires a != b && b != c && a != c && n in [a, b, c] && Chain(a, b, c).Valid()
    ensures Fresh(Chain(a, b, c), map[], ChainBuilt(a, b, c), Cell(n, None))
  {
    var reg, mats := Chain(a, b, c), ChainBuilt(a, b, c);
    PlainFresh(reg, mats, a);
    FreshAbove(reg, mats, a, b);
    FreshAbove(reg, mats, b, c);
  }

  function ChainPlan(a: Name, b: Name, c: Name): BuildPlan
    requires Chain(a, b, c).OpsIndexed()
  {
    BuildPlan([a, c], map[ValueOf(b) := Stored(SeedValue(Chain(a, b, c), ChainBuilt(a, b, c), b))])
  }

  lemma ChainAsks(a: Name, b: Name, c: Name, o: OpMeta)
    requires a != b && b != c && a != c && Chain(a, b, c).Valid() && o in Chain(a, b, c).ops
    ensures o.name in [a, c] <==> PlannedOp(Chain(a, b, c), map[], ChainBuilt(a, b, c), {a, b, c}, [a, c], o)
  {
    ChainFresh(a, b, c, b);
    assert o.produces == [o.name] && o.name in o.produces;
    if o.name in [a, c] {
      assert Asks(Chain(a, b, c), map[], ChainBuilt(a, b, c), {a, b, c}, [a, c], o.name);
    }
  }

  lemma ChainSeeds(a: Name, b: Name, c: Name)
    requires a != b && b != c && a != c && Chain(a, b, c).Valid()
    ensures SeedsFrom(Chain(a, b, c), ChainBuilt(a, b, c), [a, c], map[], ChainPlan(a, b, c).seeds, 2)
  {
    var reg, ops := Chain(a, b, c), [a, c];
    assert b in reg.Op(ops[1]).deps && b == reg.Producer(b);
    assert ReadByPlan(reg, ops, 2, b);
    forall p | ReadByPlan(reg, ops, 2, p) ensures p == b {
      var i, dep :| 0 <= i < 2 && dep in reg.Op(ops[i]).deps && p == reg.Producer(dep);
      assert i == 0 || i == 1;
    }
    assert ops[..2] == ops;
  }

  lemma ChainOps(a: Name, b: Name, c: Name)
    requires a != b && b != c && a != c && Chain(a, b, c).Valid()
    ensures PlannedOps(Chain(a, b, c), map[], ChainBuilt(a, b, c), {a, b, c}, [a, c], [a, c])
  {
    forall o | o in Chain(a, b, c).ops
      ensures o.name in [a, c] <==> PlannedOp(Chain(a, b, c), map[], ChainBuilt(a, b, c), {a, b, c}, [a, c], o)
    {
      ChainAsks(a, b, c, o);
    }
  }

  lemma NoKeys(reg: Registry, sets: Sets, mats: Mats, ops: seq<Name>, targets: seq<Name>)
    requires reg.Valid() && SetsFor(reg, sets) && forall o :: o in reg.ops ==> o.partitions.None?
    ensures KeyTargetsFrom(reg, sets, mats, ops, targets, map[], map[], 0)
  {
  }

  lemma ChainPlans(a: Name, b: Name, c: Name)
    requires a != b && b != c && a != c && Chain(a, b, c).Valid() && SetsFor(Chain(a, b, c), map[])
    ensures Plans(Chain(a, b, c), map[], ChainBuilt(a, b, c), {a, b, c}, [a, c], map[], ChainPlan(a, b, c))
  {
    ChainOps(a, b, c);
    ChainSeeds(a, b, c);
    NoKeys(Chain(a, b, c), map[], ChainBuilt(a, b, c), [a, c], [a, c]);
  }

  lemma ChainInstances(a: Name, b: Name, c: Name)
    requires a != b && b != c && a != c && Chain(a, b, c).OpsIndexed()
    ensures Instances(Chain(a, b, c), ChainPlan(a, b, c), {Execution.Inst(a, None), Execution.Inst(c, None)})
  {
  }

  lemma ChainClaims(a: Name, b: Name, c: Name)
    requires a != b && b != c && a != c && Chain(a, b, c).OpsIndexed()
    ensures PlanCell(Chain(a, b, c), ChainPlan(a, b, c), Cell(a, None))
    ensures !PlanCell(Chain(a, b, c), ChainPlan(a, b, c), Cell(b, None))
  {
    assert OpCell(Chain(a, b, c), ChainPlan(a, b, c), a, Cell(a, None));
  }

  /**
   * One plan for two targets with a fresh asset between them need not converge:
   * everything starts fresh, both targets are rebuilt, and after some run the
   * asset between them and the second target are stale.
   */
  lemma TwoTargetsDoNotConverge(a: Name, b: Name, c: Name) returns (end: Mats)
    requires a != b && b != c && a != c
    ensures Chain(a, b, c).Valid() && SetsFor(Chain(a, b, c), map[])
    ensures forall n :: n in [a, b, c] ==> Fresh(Chain(a, b, c), map[], ChainBuilt(a, b, c), Cell(n, None))
    ensures Plans(Chain(a, b, c), map[], ChainBuilt(a, b, c), {a, b, c}, [a, c], map[], ChainPlan(a, b, c))
    ensures Execution.Completes(Chain(a, b, c), map[], {Execution.Inst(a, None), Execution.Inst(c, None)},
                                ChainBuilt(a, b, c), end)
    ensures Instances(Chain(a, b, c), ChainPlan(a, b, c), {Execution.Inst(a, None), Execution.Inst(c, None)})
    ensures !Fresh(Chain(a, b, c), map[], end, Cell(b, None)) && !Fresh(Chain(a, b, c), map[], end, Cell(c, None))
  {
    var reg, start := Chain(a, b, c), ChainBuilt(a, b, c);
    ChainValid(a, b, c);
    ChainPlain(a, b, c);
    forall n | n in [a, b, c] ensures Fresh(reg, map[], start, Cell(n, None)) {
      ChainFresh(a, b, c, n);
    }
    ChainPlans(a, b, c);
    ChainInstances(a, b, c);
    ChainClaims(a, b, c);
    end := LeftAlone(reg, ChainPlan(a, b, c), {Execution.Inst(a, None), Execution.Inst(c, None)}, start, b, a);
    StaleAbove(reg, end, c, b);
  }

  // ----------------------------------------------------------- a fresh sibling rebuilt

  predicate FiveNames(m: Name, x: Name, y: Name, s: Name, r: Name) {
    NoRepeats([m, x, y, s, r])
  }

  /** One op makes `x` and `y`; `s` reads `y`, and `r` reads `x` and `s`. */
  function Siblings(m: Name, x: Name, y: Name, s: Name, r: Name): Registry {
    Registry([Derived(x, [], m), Derived(y, [], m), Derived(s, [y], s), Derived(r, [x, s], r)],
             map[x := 0, y := 1, s := 2, r := 3], [OpMeta(m, [x, y], [], map[], None), Solo(s, [y]), Solo(r, [x, s])],
             map[m := 0, s := 1, r := 2])
  }

  // `x` and `r` have never been built; `y` and what reads it are fresh.
  function HalfBuilt(y: Name, s: Name): Mats {
    map[Cell(y, None) := Row("1", map[]), Cell(s, None) := Row("1", map[y := Text("1")])]
  }

  function SiblingPlan(m: Name, x: Name, y: Name, s: Name, r: Name): BuildPlan
    requires Siblings(m, x, y, s, r).OpsIndexed()
  {
    BuildPlan([m, r], map[ValueOf(s) := Stored(SeedValue(Siblings(m, x, y, s, r), HalfBuilt(y, s), s))])
  }

  lemma Apart(m: Name, x: Name, y: Name, s: Name, r: Name)
    requires FiveNames(m, x, y, s, r)
    ensures m != x && m != y && m != s && m != r && x != y && x != s && x != r && y != s && y != r && s != r
  {
    var names := [m, x, y, s, r];
    assert names[0] != names[1] && names[0] != names[2] && names[0] != names[3] && names[0] != names[4];
    assert names[1] != names[2] && names[1] != names[3] && names[1] != names[4];
    assert names[2] != names[3] && names[2] != names[4] && names[3] != names[4];
  }

  lemma SiblingsIndexed(m: Name, x: Name, y: Name, s: Name, r: Name)
    requires FiveNames(m, x, y, s, r)
    ensures Siblings(m, x, y, s, r).NamesIndexed() && Siblings(m, x, y, s, r).OpsIndexed()
  {
    Apart(m, x, y, s, r);
  }

  lemma SiblingsMetas(m: Name, x: Name, y: Name, s: Name, r: Name, i: nat)
    requires FiveNames(m, x, y, s, r) && i < 4 && Siblings(m, x, y, s, r).NamesIndexed()
    requires Siblings(m, x, y, s, r).OpsIndexed()
    ensures Siblings(m, x, y, s, r).ValidMeta(i)
  {
    Apart(m, x, y, s, r);
    assert i == 0 || i == 1 || i == 2 || i == 3;
  }

  lemma SiblingsOps(m: Name, x: Name, y: Name, s: Name, r: Name, i: nat)
    requires FiveNames(m, x, y, s, r) && i < 3 && Siblings(m, x, y, s, r).NamesIndexed()
    ensures Siblings(m, x, y, s, r).ValidOp(Siblings(m, x, y, s, r).ops[i])
    ensures Siblings(m, x, y, s, r).Least(Siblings(m, x, y, s, r).ops[i].produces) == if i == 0 then 0 else i + 1
  {
    Apart(m, x, y, s, r);
    assert i == 0 || i == 1 || i == 2;
    assert [x, y][1..] == [y];
  }

  lemma SiblingsKnown(m: Name, x: Name, y: Name, s: Name, r: Name)
    requires FiveNames(m, x, y, s, r)
    ensures Siblings(m, x, y, s, r).NamesIndexed() && Siblings(m, x, y, s, r).OpsIndexed()
    ensures SetsFor(Siblings(m, x, y, s, r), map[])
    ensures forall i :: 0 <= i < 4 ==> Siblings(m, x, y, s, r).ValidMeta(i)
  {
    SiblingsIndexed(m, x, y, s, r);
    forall i | 0 <= i < 4 ensures Siblings(m, x, y, s, r).ValidMeta(i) {
      SiblingsMetas(m, x, y, s, r, i);
    }
  }

  lemma SiblingsSorted(m: Name, x: Name, y: Name, s: Name, r: Name)
    requires FiveNames(m, x, y, s, r) && Siblings(m, x, y, s, r).NamesIndexed()
    ensures Siblings(m, x, y, s, r).OpsSorted()
    ensures forall i :: 0 <= i < 3 ==> Siblings(m, x, y, s, r).ValidOp(Siblings(m, x, y, s, r).ops[i])
  {
    var reg := Siblings(m, x, y, s, r);
    forall i | 0 <= i < 3
      ensures reg.ValidOp(reg.ops[i]) && reg.Least(reg.ops[i].produces) == if i == 0 then 0 else i + 1
    {
      SiblingsOps(m, x, y, s, r, i);
    }
  }

  lemma SiblingsValid(m: Name, x: Name, y: Name, s: Name, r: Name)
    requires FiveNames(m, x, y, s, r)
    ensures Siblings(m, x, y, s, r).Valid() && SetsFor(Siblings(m, x, y, s, r), map[])
  {
    SiblingsIndexed(m, x, y, s, r);
    SiblingsKnown(m, x, y, s, r);
    SiblingsSorted(m, x, y, s, r);
  }

  lemma SiblingsFresh(m: Name, x: Name, y: Name, s: Name, r: Name)
    requires FiveNames(m, x, y, s, r) && Siblings(m, x, y, s, r).Valid()
    ensures Fresh(Siblings(m, x, y, s, r), map[], HalfBuilt(y, s), Cell(y, None))
    ensures Fresh(Siblings(m, x, y, s, r), map[], HalfBuilt(y, s), Cell(s, None))
    ensures !Fresh(Siblings(m, x, y, s, r), map[], HalfBuilt(y, s), Cell(x, None))
  {
    Apart(m, x, y, s, r);
    PlainFresh(Siblings(m, x, y, s, r), HalfBuilt(y, s), y);
    PlainFresh(Siblings(m, x, y, s, r), HalfBuilt(y, s), s);
  }

  lemma SiblingAsks(m: Name, x: Name, y: Name, s: Name, r: Name, i: nat)
    requires FiveNames(m, x, y, s, r) && Siblings(m, x, y, s, r).Valid() && i < 3
    ensures Siblings(m, x, y, s, r).ops[i].name in [m, r] <==>
            PlannedOp(Siblings(m, x, y, s, r), map[], HalfBuilt(y, s), {x, y, s, r}, [r],
                      Siblings(m, x, y, s, r).ops[i])
  {
    var reg := Siblings(m, x, y, s, r);
    Apart(m, x, y, s, r);
    SiblingsFresh(m, x, y, s, r);
    assert i == 0 || i == 1 || i == 2;
    if i == 0 {
      assert x in reg.ops[0].produces && Asks(reg, map[], HalfBuilt(y, s), {x, y, s, r}, [r], x);
    } else if i == 2 {
      assert r in reg.ops[2].produces && Asks(reg, map[], HalfBuilt(y, s), {x, y, s, r}, [r], r);
    }
  }

  lemma SiblingOps(m: Name, x: Name, y: Name, s: Name, r: Name)
    requires FiveNames(m, x, y, s, r) && Siblings(m, x, y, s, r).Valid()
    ensures PlannedOps(Siblings(m, x, y, s, r), map[], HalfBuilt(y, s), {x, y, s, r}, [r], [m, r])
  {
    var reg := Siblings(m, x, y, s, r);
    Apart(m, x, y, s, r);
    forall o | o in reg.ops ensures o.name in [m, r] <==> PlannedOp(reg, map[], HalfBuilt(y, s), {x, y, s, r}, [r], o) {
      var i :| 0 <= i < 3 && reg.ops[i] == o;
      SiblingAsks(m, x, y, s, r, i);
    }
  }

  lemma SiblingReads(m: Name, x: Name, y: Name, s: Name, r: Name, p: Name)
    requires FiveNames(m, x, y, s, r) && Siblings(m, x, y, s, r).NamesIndexed() && Siblings(m, x, y, s, r).OpsIndexed()
    ensures ReadByPlan(Siblings(m, x, y, s, r), [m, r], 2, p) <==> p == m || p == s
  {
    var reg, ops := Siblings(m, x, y, s, r), [m, r];
    Apart(m, x, y, s, r);
    assert s in reg.Op(ops[1]).deps && s == reg.Producer(s);
    assert x in reg.Op(ops[1]).deps && m == reg.Producer(x);
    if ReadByPlan(reg, ops, 2, p) {
      var i, dep :| 0 <= i < 2 && dep in reg.Op(ops[i]).deps && p == reg.Producer(dep);
      assert i == 0 || i == 1;
    }
  }

  lemma SiblingSeeds(m: Name, x: Name, y: Name, s: Name, r: Name)
    requires FiveNames(m, x, y, s, r) && Siblings(m, x, y, s, r).NamesIndexed() && Siblings(m, x, y, s, r).OpsIndexed()
    requires forall n :: n in [m, r] ==> n in Siblings(m, x, y, s, r).byOp
    ensures SeedsFrom(Siblings(m, x, y, s, r), HalfBuilt(y, s), [m, r], map[], SiblingPlan(m, x, y, s, r).seeds, 2)
  {
    Apart(m, x, y, s, r);
    forall p ensures ReadByPlan(Siblings(m, x, y, s, r), [m, r], 2, p) <==> p == m || p == s {
      SiblingReads(m, x, y, s, r, p);
    }
    assert [m, r][..2] == [m, r];
  }

  lemma SiblingPlans(m: Name, x: Name, y: Name, s: Name, r: Name)
    requires FiveNames(m, x, y, s, r) && Siblings(m, x, y, s, r).Valid() && SetsFor(Siblings(m, x, y, s, r), map[])
    ensures Plans(Siblings(m, x, y, s, r), map[], HalfBuilt(y, s), {x, y, s, r}, [r], map[], SiblingPlan(m, x, y, s, r))
  {
    SiblingOps(m, x, y, s, r);
    SiblingSeeds(m, x, y, s, r);
    NoKeys(Siblings(m, x, y, s, r), map[], HalfBuilt(y, s), [m, r], [r]);
  }

  lemma SiblingClaims(m: Name, x: Name, y: Name, s: Name, r: Name)
    requires FiveNames(m, x, y, s, r) && Siblings(m, x, y, s, r).OpsIndexed()
    ensures PlanCell(Siblings(m, x, y, s, r), SiblingPlan(m, x, y, s, r), Cell(y, None))
    ensures !PlanCell(Siblings(m, x, y, s, r), SiblingPlan(m, x, y, s, r), Cell(s, None))
    ensures Instances(Siblings(m, x, y, s, r), SiblingPlan(m, x, y, s, r),
                      {Execution.Inst(m, None), Execution.Inst(r, None)})
  {
    Apart(m, x, y, s, r);
    assert OpCell(Siblings(m, x, y, s, r), SiblingPlan(m, x, y, s, r), m, Cell(y, None));
  }

  /**
   * Nor need a plan for a single target, when an op makes more than one asset:
   * run for its stale output, it moves the fingerprint of a fresh one, and the
   * target ends stale through an asset the plan left alone.
   */
  lemma SiblingDoesNotConverge(m: Name, x: Name, y: Name, s: Name, r: Name) returns (end: Mats)
    requires FiveNames(m, x, y, s, r)
    ensures Siblings(m, x, y, s, r).Valid() && SetsFor(Siblings(m, x, y, s, r), map[])
    ensures Plans(Siblings(m, x, y, s, r), map[], HalfBuilt(y, s), {x, y, s, r}, [r], map[], SiblingPlan(m, x, y, s, r))
    ensures Instances(Siblings(m, x, y, s, r), SiblingPlan(m, x, y, s, r),
                      {Execution.Inst(m, None), Execution.Inst(r, None)})
    ensures Execution.Completes(Siblings(m, x, y, s, r), map[], {Execution.Inst(m, None), Execution.Inst(r, None)},
                                HalfBuilt(y, s), end)
    ensures !Fresh(Siblings(m, x, y, s, r), map[], end, Cell(r, None))
  {
    var reg, start := Siblings(m, x, y, s, r), HalfBuilt(y, s);
    var i, j := Execution.Inst(m, None), Execution.Inst(r, None);
    SiblingsValid(m, x, y, s, r);
    SiblingPlans(m, x, y, s, r);
    SiblingClaims(m, x, y, s, r);
    Apart(m, x, y, s, r);
    end := LeftAlone(reg, SiblingPlan(m, x, y, s, r), {i, j}, start, s, y);
    StaleAbove(reg, end, r, s);
  }
}
