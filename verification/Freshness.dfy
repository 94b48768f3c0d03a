/**
 * Staleness (src/asset.rs): one verdict per cell, an asset and for a
 * partitioned asset a key, computed in one pass over the dependency order.
 */
module Freshness {
  import opened Prelude
  import opened Assets

  type Sets = map<Name, seq<Key>>

  datatype Cell = Cell(asset: Name, key: Option<Key>)

  /** One materialization: its fingerprint, the fingerprints it consumed, and the value. */
  datatype Mat = Mat(fp: Print, inputs: map<Name, Value>, value: Value, run: Option<string>)

  type Mats = map<Cell, Mat>

  /** Every partitioned asset's keys, and nothing else's. */
  ghost predicate SetsFor(reg: Registry, sets: Sets)
    requires reg.NamesIndexed()
  {
    && (forall n :: n in reg.byName ==> (n in sets <==> reg.Meta(n).partitions.Some?))
    && forall n :: n in sets ==> n in reg.byName
  }

  function PrintOf(mats: Mats, c: Cell): Option<Print> {
    if c in mats then Some(mats[c].fp) else None
  }

  function AsText(v: Option<Value>): Option<Print> {
    match v
    case Some(Text(t)) => Some(t)
    case _ => None
  }

  function Field(v: Option<Value>, key: Key): Option<Value> {
    match v
    case Some(Object(fields)) => if key in fields then Some(fields[key]) else None
    case _ => None
  }

  function Lookup<T>(m: map<Name, T>, n: Name): Option<T> {
    if n in m then Some(m[n]) else None
  }

  function Somes(keys: seq<Key>): (r: seq<Option<Key>>)
    ensures |r| == |keys| && forall i :: 0 <= i < |keys| ==> r[i] == Some(keys[i])
  {
    seq(|keys|, i requires 0 <= i < |keys| => Some(keys[i]))
  }

  /** Whether an edge goes through a mapping, rather than being read at the reader's own key or whole. */
  predicate Mapped(sets: Sets, maps: map<Name, Mapping>, dep: Name) {
    dep in sets && !MappingOf(maps, dep).Identity?
  }

  /** The keys of a dep one verdict asks about, held and missing alike. */
  function Consulted(sets: Sets, maps: map<Name, Mapping>, dep: Name, key: Option<Key>): seq<Option<Key>> {
    if Mapped(sets, maps, dep) then
      var r := Resolve(MappingOf(maps, dep), key, sets[dep]);
      Somes(r.keys + r.missing)
    else
      [if dep in sets then key else None]
  }

  /** The fingerprint a build says it consumed of one of a dep's keys. */
  function Had(sets: Sets, maps: map<Name, Mapping>, mat: Mat, dep: Name, at: Option<Key>): Option<Print> {
    if Mapped(sets, maps, dep) && at.Some? then AsText(Field(Lookup(mat.inputs, dep), at.value))
    else AsText(Lookup(mat.inputs, dep))
  }

  // ----------------------------------------------------------- what fresh means

  ghost predicate ReadsCell(reg: Registry, sets: Sets, c: Cell, d: Cell)
    requires reg.Valid() && c.asset in reg.byName
  {
    d.asset in reg.Meta(c.asset).deps && d.key in Consulted(sets, reg.Meta(c.asset).maps, d.asset, c.key)
  }

  lemma ReadsRank(reg: Registry, sets: Sets, c: Cell, d: Cell)
    requires reg.Valid() && c.asset in reg.byName && d.asset in reg.Meta(c.asset).deps
    ensures d.asset in reg.byName && reg.byName[d.asset] < reg.byName[c.asset]
  {
    assert reg.ValidMeta(reg.byName[c.asset]);
  }

  /** One edge's own evidence: the key is one the dep has, materialized, and not moved since. */
  ghost predicate EdgeHolds(reg: Registry, sets: Sets, mats: Mats, c: Cell, d: Cell)
    requires reg.Valid() && c.asset in reg.byName && c in mats
  {
    && (d.key.Some? ==> d.asset in sets && d.key.value in sets[d.asset])
    && PrintOf(mats, d).Some?
    && Had(sets, reg.Meta(c.asset).maps, mats[c], d.asset, d.key) == PrintOf(mats, d)
  }

  ghost predicate Fresh(reg: Registry, sets: Sets, mats: Mats, c: Cell)
    requires reg.Valid() && c.asset in reg.byName
    decreases reg.byName[c.asset]
  {
    && c in mats
    && forall d :: ReadsCell(reg, sets, c, d) ==>
         EdgeHolds(reg, sets, mats, c, d) && (ReadsRank(reg, sets, c, d); Fresh(reg, sets, mats, d))
  }

  // ----------------------------------------------------------- the cone condition

  ghost predicate ReadPath(reg: Registry, sets: Sets, p: seq<Cell>)
    requires reg.Valid()
  {
    && p != []
    && (forall k :: 0 <= k < |p| ==> p[k].asset in reg.byName)
    && forall k :: 0 <= k < |p| - 1 ==> ReadsCell(reg, sets, p[k], p[k + 1])
  }

  ghost predicate HoldsHere(reg: Registry, sets: Sets, mats: Mats, c: Cell)
    requires reg.Valid() && c.asset in reg.byName
  {
    c in mats && forall d :: ReadsCell(reg, sets, c, d) ==> EdgeHolds(reg, sets, mats, c, d)
  }

  /** Every cell the reads of `c` reach, `c` among them, is materialized with nothing missing or moved. */
  ghost predicate ConeHolds(reg: Registry, sets: Sets, mats: Mats, c: Cell)
    requires reg.Valid() && c.asset in reg.byName
  {
    forall p :: ReadPath(reg, sets, p) && p[0] == c ==> HoldsHere(reg, sets, mats, p[|p| - 1])
  }

  lemma {:induction false} FreshReaches(reg: Registry, sets: Sets, mats: Mats, p: seq<Cell>)
    requires reg.Valid() && ReadPath(reg, sets, p) && Fresh(reg, sets, mats, p[0])
    ensures Fresh(reg, sets, mats, p[|p| - 1])
  {
    if |p| > 1 {
      assert ReadsCell(reg, sets, p[0], p[0 + 1]);
      var rest := p[1..];
      forall k | 0 <= k < |rest| - 1 ensures ReadsCell(reg, sets, rest[k], rest[k + 1]) {
        assert ReadsCell(reg, sets, p[k + 1], p[k + 1 + 1]);
      }
      FreshReaches(reg, sets, mats, rest);
    }
  }

  lemma ConeOfRead(reg: Registry, sets: Sets, mats: Mats, c: Cell, d: Cell)
    requires reg.Valid() && c.asset in reg.byName && ConeHolds(reg, sets, mats, c)
    requires ReadsCell(reg, sets, c, d) && d.asset in reg.byName
    ensures ConeHolds(reg, sets, mats, d)
  {
    forall p | ReadPath(reg, sets, p) && p[0] == d ensures HoldsHere(reg, sets, mats, p[|p| - 1]) {
      var q := [c] + p;
      forall k | 0 <= k < |q| - 1 ensures ReadsCell(reg, sets, q[k], q[k + 1]) {
        if k > 0 {
          assert ReadsCell(reg, sets, p[k - 1], p[k - 1 + 1]);
        }
      }
      assert ReadPath(reg, sets, q) && q[0] == c && q[|q| - 1] == p[|p| - 1];
    }
  }

  /** The recursive verdict and the condition on the whole read cone are the same. */
  lemma {:induction false} FreshIffConeHolds(reg: Registry, sets: Sets, mats: Mats, c: Cell)
    requires reg.Valid() && c.asset in reg.byName
    ensures Fresh(reg, sets, mats, c) <==> ConeHolds(reg, sets, mats, c)
    decreases reg.byName[c.asset]
  {
    if Fresh(reg, sets, mats, c) {
      forall p | ReadPath(reg, sets, p) && p[0] == c ensures HoldsHere(reg, sets, mats, p[|p| - 1]) {
        FreshReaches(reg, sets, mats, p);
      }
    }
    if ConeHolds(reg, sets, mats, c) {
      assert ReadPath(reg, sets, [c]);
      forall d | ReadsCell(reg, sets, c, d)
        ensures EdgeHolds(reg, sets, mats, c, d) && d.asset in reg.byName && Fresh(reg, sets, mats, d)
      {
        ReadsRank(reg, sets, c, d);
        ConeOfRead(reg, sets, mats, c, d);
        FreshIffConeHolds(reg, sets, mats, d);
      }
    }
  }

  // ----------------------------------------------------------- a verdict, read off the rows

  /** What a row says it consumed: a text under the dep, or under the dep's key where a mapping names one. */
  lemma HadSays(sets: Sets, maps: map<Name, Mapping>, mat: Mat, dep: Name, at: Option<Key>, fp: Print)
    ensures at.None? || dep !in sets || dep !in maps || maps[dep].Identity? ==>
              (Had(sets, maps, mat, dep, at) == Some(fp) <==> dep in mat.inputs && mat.inputs[dep] == Text(fp))
    ensures at.Some? && dep in sets && dep in maps && !maps[dep].Identity? ==>
              (Had(sets, maps, mat, dep, at) == Some(fp) <==>
                 && dep in mat.inputs && mat.inputs[dep].Object?
                 && at.value in mat.inputs[dep].fields && mat.inputs[dep].fields[at.value] == Text(fp))
  {
  }

  /** Where a verdict looks: at the dep as a whole, at the reader's own key, or at all a mapping reads and misses. */
  lemma ConsultedSays(sets: Sets, maps: map<Name, Mapping>, dep: Name, key: Option<Key>)
    ensures dep !in sets ==> Consulted(sets, maps, dep, key) == [None]
    ensures dep in sets && (dep !in maps || maps[dep].Identity?) ==> Consulted(sets, maps, dep, key) == [key]
    ensures dep in sets && dep in maps && !maps[dep].Identity? ==>
              var r, ats := Resolve(maps[dep], key, sets[dep]), Consulted(sets, maps, dep, key);
              && |ats| == |r.keys| + |r.missing|
              && (forall i :: 0 <= i < |r.keys| ==> ats[i] == Some(r.keys[i]))
              && forall i :: |r.keys| <= i < |ats| ==> ats[i] == Some(r.missing[i - |r.keys|])
  {
  }

  /**
   * Fresh, read off the rows: the cell is there, and wherever its verdict looks
   * there is a row of a key the dep has, fresh itself, with the fingerprint the
   * cell says it consumed.
   */
  lemma FreshSays(reg: Registry, sets: Sets, mats: Mats, c: Cell)
    requires reg.Valid() && c.asset in reg.byName
    ensures Fresh(reg, sets, mats, c) <==>
            && c in mats
            && forall dep, at ::
                 dep in reg.Meta(c.asset).deps && at in Consulted(sets, reg.Meta(c.asset).maps, dep, c.key) ==>
                   ReadIsFresh(reg, sets, mats, c, dep, at)
  {
    forall d | ReadsCell(reg, sets, c, d) ensures d == Cell(d.asset, d.key) && d.asset in reg.byName {
      ReadsRank(reg, sets, c, d);
    }
    if Fresh(reg, sets, mats, c) {
      forall dep, at | dep in reg.Meta(c.asset).deps && at in Consulted(sets, reg.Meta(c.asset).maps, dep, c.key)
        ensures ReadIsFresh(reg, sets, mats, c, dep, at)
      {
        assert ReadsCell(reg, sets, c, Cell(dep, at));
      }
    } else if c in mats {
      var d :| ReadsCell(reg, sets, c, d) && !(EdgeHolds(reg, sets, mats, c, d) && Fresh(reg, sets, mats, d));
      assert !ReadIsFresh(reg, sets, mats, c, d.asset, d.key);
    }
  }

  ghost predicate ReadIsFresh(reg: Registry, sets: Sets, mats: Mats, c: Cell, dep: Name, at: Option<Key>)
    requires reg.Valid() && c.asset in reg.byName && c in mats
  {
    var d := Cell(dep, at);
    && (at.Some? ==> dep in sets && at.value in sets[dep])
    && d in mats && Had(sets, reg.Meta(c.asset).maps, mats[c], dep, at) == Some(mats[d].fp)
    && dep in reg.byName && Fresh(reg, sets, mats, d)
  }

  // ----------------------------------------------------------- verdicts and their reasons

  datatype StaleReason = StaleReason(dep: Name, partition: Option<Key>, had: Option<Print>, now: Option<Print>)

  datatype Staleness = Staleness(stale: bool, reasons: seq<StaleReason>, parts: map<Key, Staleness>)

  ghost predicate EdgeFresh(reg: Registry, sets: Sets, mats: Mats, c: Cell, d: Cell)
    requires reg.Valid() && c.asset in reg.byName && c in mats && d.asset in reg.byName
  {
    EdgeHolds(reg, sets, mats, c, d) && Fresh(reg, sets, mats, d)
  }

  /** The first of these keys whose edge is not fresh. */
  ghost function Culprit(reg: Registry, sets: Sets, mats: Mats, c: Cell, dep: Name,
                         ats: seq<Option<Key>>): Option<Option<Key>>
    requires reg.Valid() && c.asset in reg.byName && c in mats && dep in reg.byName
  {
    if ats == [] then None
    else if EdgeFresh(reg, sets, mats, c, Cell(dep, ats[0])) then Culprit(reg, sets, mats, c, dep, ats[1..])
    else Some(ats[0])
  }

  /** One reason per dep that moved, in the order the deps were declared. */
  ghost function Reasons(reg: Registry, sets: Sets, mats: Mats, c: Cell, deps: seq<Name>): seq<StaleReason>
    requires reg.Valid() && c.asset in reg.byName && c in mats && forall d :: d in deps ==> d in reg.byName
  {
    if deps == [] then []
    else
      var n := |deps| - 1;
      Reasons(reg, sets, mats, c, deps[..n]) + ReasonFor(reg, sets, mats, c, deps[n])
  }

  ghost function ReasonFor(reg: Registry, sets: Sets, mats: Mats, c: Cell, dep: Name): seq<StaleReason>
    requires reg.Valid() && c.asset in reg.byName && c in mats && dep in reg.byName
  {
    var maps := reg.Meta(c.asset).maps;
    match Culprit(reg, sets, mats, c, dep, Consulted(sets, maps, dep, c.key))
    case None => []
    case Some(at) =>
      [StaleReason(dep, if Mapped(sets, maps, dep) then at else None,
                   Had(sets, maps, mats[c], dep, at), PrintOf(mats, Cell(dep, at)))]
  }

  lemma {:induction false} CulpritFound(reg: Registry, sets: Sets, mats: Mats, c: Cell, dep: Name,
                                        ats: seq<Option<Key>>)
    requires reg.Valid() && c.asset in reg.byName && c in mats && dep in reg.byName
    ensures Culprit(reg, sets, mats, c, dep, ats).None? <==>
            forall at :: at in ats ==> EdgeFresh(reg, sets, mats, c, Cell(dep, at))
  {
    if ats != [] {
      CulpritFound(reg, sets, mats, c, dep, ats[1..]);
      assert ats == [ats[0]] + ats[1..];
    }
  }

  lemma {:induction false} NoReasonIffEdgesFresh(reg: Registry, sets: Sets, mats: Mats, c: Cell, deps: seq<Name>)
    requires reg.Valid() && c.asset in reg.byName && c in mats && forall d :: d in deps ==> d in reg.byName
    ensures Reasons(reg, sets, mats, c, deps) == [] <==>
            forall dep, at :: dep in deps && at in Consulted(sets, reg.Meta(c.asset).maps, dep, c.key) ==>
              EdgeFresh(reg, sets, mats, c, Cell(dep, at))
  {
    if deps != [] {
      var n := |deps| - 1;
      assert deps == deps[..n] + [deps[n]];
      NoReasonIffEdgesFresh(reg, sets, mats, c, deps[..n]);
      CulpritFound(reg, sets, mats, c, deps[n], Consulted(sets, reg.Meta(c.asset).maps, deps[n], c.key));
    }
  }

  /** A reason, field by field: the first key that is not fresh, what was consumed of it and what is there now. */
  ghost predicate Blames(reg: Registry, sets: Sets, mats: Mats, c: Cell, dep: Name, r: StaleReason, i: nat)
    requires reg.Valid() && c.asset in reg.byName && c in mats
  {
    var maps := reg.Meta(c.asset).maps;
    var ats := Consulted(sets, maps, dep, c.key);
    && i < |ats| && !ReadIsFresh(reg, sets, mats, c, dep, ats[i])
    && (forall j :: 0 <= j < i ==> ReadIsFresh(reg, sets, mats, c, dep, ats[j]))
    && r.dep == dep
    && r.partition == (if dep in sets && dep in maps && !maps[dep].Identity? then ats[i] else None)
    && r.had == Had(sets, maps, mats[c], dep, ats[i])
    && r.now == (if Cell(dep, ats[i]) in mats then Some(mats[Cell(dep, ats[i])].fp) else None)
  }

  lemma {:induction false} CulpritIsFirst(reg: Registry, sets: Sets, mats: Mats, c: Cell, dep: Name,
                                          ats: seq<Option<Key>>) returns (i: nat)
    requires reg.Valid() && c.asset in reg.byName && c in mats && dep in reg.byName
    requires Culprit(reg, sets, mats, c, dep, ats).Some?
    ensures i < |ats| && Culprit(reg, sets, mats, c, dep, ats) == Some(ats[i])
    ensures !EdgeFresh(reg, sets, mats, c, Cell(dep, ats[i]))
    ensures forall j :: 0 <= j < i ==> EdgeFresh(reg, sets, mats, c, Cell(dep, ats[j]))
  {
    if EdgeFresh(reg, sets, mats, c, Cell(dep, ats[0])) {
      i := CulpritIsFirst(reg, sets, mats, c, dep, ats[1..]);
      i := i + 1;
    } else {
      i := 0;
    }
  }

  /** The reasons of the deps before, and then one for this dep exactly when a key looked at in it is not fresh. */
  lemma ReasonsSay(reg: Registry, sets: Sets, mats: Mats, c: Cell, deps: seq<Name>, dep: Name)
    requires reg.Valid() && c.asset in reg.byName && c in mats
    requires dep in reg.byName && forall d :: d in deps ==> d in reg.byName
    ensures Reasons(reg, sets, mats, c, []) == []
    ensures var before, now := Reasons(reg, sets, mats, c, deps), Reasons(reg, sets, mats, c, deps + [dep]);
            var ats := Consulted(sets, reg.Meta(c.asset).maps, dep, c.key);
            if forall at :: at in ats ==> ReadIsFresh(reg, sets, mats, c, dep, at) then now == before
            else |now| == |before| + 1 && now[..|before|] == before
                 && exists i :: Blames(reg, sets, mats, c, dep, now[|before|], i)
  {
    var ats := Consulted(sets, reg.Meta(c.asset).maps, dep, c.key);
    assert (deps + [dep])[..|deps|] == deps;
    forall at ensures EdgeFresh(reg, sets, mats, c, Cell(dep, at)) <==> ReadIsFresh(reg, sets, mats, c, dep, at) {
    }
    CulpritFound(reg, sets, mats, c, dep, ats);
    if Culprit(reg, sets, mats, c, dep, ats).Some? {
      var i := CulpritIsFirst(reg, sets, mats, c, dep, ats);
      assert Blames(reg, sets, mats, c, dep, ReasonFor(reg, sets, mats, c, dep)[0], i);
    }
  }

  lemma DepsRegistered(reg: Registry, c: Cell)
    requires reg.Valid() && c.asset in reg.byName
    ensures forall d :: d in reg.Meta(c.asset).deps ==> d in reg.byName && reg.byName[d] < reg.byName[c.asset]
  {
    assert reg.ValidMeta(reg.byName[c.asset]);
  }

  /** A cell is fresh exactly when it is materialized and there is no reason it is not. */
  lemma FreshIffNoReason(reg: Registry, sets: Sets, mats: Mats, c: Cell)
    requires reg.Valid() && c.asset in reg.byName && c in mats
    requires forall d :: d in reg.Meta(c.asset).deps ==> d in reg.byName
    ensures Fresh(reg, sets, mats, c) <==> Reasons(reg, sets, mats, c, reg.Meta(c.asset).deps) == []
  {
    var deps := reg.Meta(c.asset).deps;
    NoReasonIffEdgesFresh(reg, sets, mats, c, deps);
    if Reasons(reg, sets, mats, c, deps) == [] {
      forall d | ReadsCell(reg, sets, c, d) ensures EdgeFresh(reg, sets, mats, c, d) {
        assert d == Cell(d.asset, d.key);
      }
    }
    if Fresh(reg, sets, mats, c) {
      forall dep, at | dep in deps && at in Consulted(sets, reg.Meta(c.asset).maps, dep, c.key)
        ensures EdgeFresh(reg, sets, mats, c, Cell(dep, at))
      {
        assert ReadsCell(reg, sets, c, Cell(dep, at));
      }
    }
  }

  ghost predicate CellVerdict(reg: Registry, sets: Sets, mats: Mats, c: Cell, s: Staleness)
    requires reg.Valid() && c.asset in reg.byName
  {
    && (s.stale <==> !Fresh(reg, sets, mats, c))
    && s.parts == map[]
    && (c !in mats ==> s.reasons == [])
    && (c in mats ==> (DepsRegistered(reg, c); s.reasons == Reasons(reg, sets, mats, c, reg.Meta(c.asset).deps)))
  }

  /** An asset's verdict; a partitioned asset is stale exactly when one of its keys is. */
  ghost predicate AssetVerdict(reg: Registry, sets: Sets, mats: Mats, n: Name, s: Staleness)
    requires reg.Valid() && n in reg.byName
  {
    if n in sets then
      && s.reasons == []
      && (forall k :: k in s.parts <==> k in sets[n])
      && (forall k :: k in s.parts ==> CellVerdict(reg, sets, mats, Cell(n, Some(k)), s.parts[k]))
      && (s.stale <==> exists k :: k in s.parts && s.parts[k].stale)
    else CellVerdict(reg, sets, mats, Cell(n, None), s)
  }

  ghost predicate Verdicts(reg: Registry, sets: Sets, mats: Mats, done: map<Name, Staleness>, n: nat)
    requires reg.Valid()
  {
    && (forall a :: a in done <==> a in reg.byName && reg.byName[a] < n)
    && forall a :: a in done ==> AssetVerdict(reg, sets, mats, a, done[a])
  }

  // A dep as a verdict may ask about it: at a key iff it is partitioned.
  ghost predicate WellKeyed(reg: Registry, sets: Sets, c: Cell)
    requires reg.NamesIndexed()
  {
    c.asset in reg.byName && (c.key.Some? <==> c.asset in sets)
  }

  lemma ReadsWellKeyed(reg: Registry, sets: Sets, c: Cell, d: Cell)
    requires reg.Valid() && SetsFor(reg, sets) && WellKeyed(reg, sets, c) && ReadsCell(reg, sets, c, d)
    ensures WellKeyed(reg, sets, d)
  {
    ReadsRank(reg, sets, c, d);
    assert reg.ValidMeta(reg.byName[c.asset]);
    assert reg.ValidEdge(reg.Meta(c.asset), d.asset);
  }

  method DepStale(reg: Registry, sets: Sets, mats: Mats, done: map<Name, Staleness>, ghost n: nat,
                  d: Cell) returns (stale: bool)
    requires reg.Valid() && Verdicts(reg, sets, mats, done, n) && WellKeyed(reg, sets, d) && reg.byName[d.asset] < n
    ensures !stale <==> (d.key.Some? ==> d.key.value in sets[d.asset]) && Fresh(reg, sets, mats, d)
  {
    var s := done[d.asset];
    assert AssetVerdict(reg, sets, mats, d.asset, s);
    match d.key {
      case Some(key) =>
        stale := key !in s.parts || s.parts[key].stale;
        if key in s.parts { assert CellVerdict(reg, sets, mats, Cell(d.asset, Some(key)), s.parts[key]); }
      case None => stale := s.stale;
    }
  }

  /** The first key of these that moved, and the reason it gives. */
  method FindCulprit(reg: Registry, sets: Sets, mats: Mats, done: map<Name, Staleness>, c: Cell, dep: Name)
    returns (reasons: seq<StaleReason>)
    requires reg.Valid() && SetsFor(reg, sets) && WellKeyed(reg, sets, c) && c in mats
    requires Verdicts(reg, sets, mats, done, reg.byName[c.asset])
    requires dep in reg.Meta(c.asset).deps && dep in reg.byName
    ensures reasons == ReasonFor(reg, sets, mats, c, dep)
  {
    var maps := reg.Meta(c.asset).maps;
    var ats := Consulted(sets, maps, dep, c.key);
    var i := 0;
    while i < |ats|
      invariant 0 <= i <= |ats|
      invariant Culprit(reg, sets, mats, c, dep, ats) == Culprit(reg, sets, mats, c, dep, ats[i..])
    {
      var d := Cell(dep, ats[i]);
      assert ReadsCell(reg, sets, c, d);
      ReadsRank(reg, sets, c, d);
      ReadsWellKeyed(reg, sets, c, d);
      var stale := DepStale(reg, sets, mats, done, reg.byName[c.asset], d);
      var had, now := Had(sets, maps, mats[c], dep, ats[i]), PrintOf(mats, d);
      if stale || now.None? || had != now {
        return [StaleReason(dep, if Mapped(sets, maps, dep) then ats[i] else None, had, now)];
      }
      assert ats[i..][1..] == ats[i + 1..];
      i := i + 1;
    }
    return [];
  }

  lemma ReasonsOneMore(reg: Registry, sets: Sets, mats: Mats, c: Cell, deps: seq<Name>, t: nat)
    requires reg.Valid() && c.asset in reg.byName && c in mats && forall d :: d in deps ==> d in reg.byName
    requires t < |deps|
    ensures Reasons(reg, sets, mats, c, deps[..t + 1]) ==
            Reasons(reg, sets, mats, c, deps[..t]) + ReasonFor(reg, sets, mats, c, deps[t])
  {
    assert deps[..t + 1][..t] == deps[..t];
  }

  method CollectReasons(reg: Registry, sets: Sets, mats: Mats, done: map<Name, Staleness>, c: Cell, deps: seq<Name>)
    returns (reasons: seq<StaleReason>)
    requires reg.Valid() && SetsFor(reg, sets) && WellKeyed(reg, sets, c) && c in mats
    requires Verdicts(reg, sets, mats, done, reg.byName[c.asset])
    requires deps == reg.Meta(c.asset).deps && forall d :: d in deps ==> d in reg.byName
    ensures reasons == Reasons(reg, sets, mats, c, deps)
  {
    reasons := [];
    for t := 0 to |deps|
      invariant reasons == Reasons(reg, sets, mats, c, deps[..t])
    {
      var found := FindCulprit(reg, sets, mats, done, c, deps[t]);
      ReasonsOneMore(reg, sets, mats, c, deps, t);
      reasons := reasons + found;
    }
    assert deps[..|deps|] == deps;
  }

  method OneStaleness(reg: Registry, sets: Sets, mats: Mats, done: map<Name, Staleness>, c: Cell) returns (s: Staleness)
    requires reg.Valid() && SetsFor(reg, sets) && WellKeyed(reg, sets, c)
    requires Verdicts(reg, sets, mats, done, reg.byName[c.asset])
    ensures CellVerdict(reg, sets, mats, c, s)
  {
    if c !in mats {
      return Staleness(true, [], map[]);
    }
    DepsRegistered(reg, c);
    var reasons := CollectReasons(reg, sets, mats, done, c, reg.Meta(c.asset).deps);
    FreshIffNoReason(reg, sets, mats, c);
    return Staleness(reasons != [], reasons, map[]);
  }

  lemma SameCellSameVerdict(reg: Registry, sets: Sets, mats: Mats, n: Name, parts: map<Key, Staleness>, key: Key,
                            one: Staleness, after: map<Key, Staleness>)
    requires reg.Valid() && n in reg.byName
    requires forall k :: k in parts ==> CellVerdict(reg, sets, mats, Cell(n, Some(k)), parts[k])
    requires CellVerdict(reg, sets, mats, Cell(n, Some(key)), one) && after == parts[key := one]
    ensures (exists k :: k in after && after[k].stale) <==> one.stale || exists k :: k in parts && parts[k].stale
  {
    if k :| k in parts && parts[k].stale {
      assert k in after && after[k].stale;
    }
    if one.stale {
      assert key in after && after[key].stale;
    }
  }

  method KeyVerdicts(reg: Registry, sets: Sets, mats: Mats, done: map<Name, Staleness>, n: Name) returns (s: Staleness)
    requires reg.Valid() && SetsFor(reg, sets) && n in reg.byName && n in sets
    requires Verdicts(reg, sets, mats, done, reg.byName[n])
    ensures AssetVerdict(reg, sets, mats, n, s)
  {
    var keys := sets[n];
    var parts: map<Key, Staleness> := map[];
    var any := false;
    for t := 0 to |keys|
      invariant forall k :: k in parts <==> k in keys[..t]
      invariant forall k :: k in parts ==> CellVerdict(reg, sets, mats, Cell(n, Some(k)), parts[k])
      invariant any <==> exists k :: k in parts && parts[k].stale
    {
      var one := OneStaleness(reg, sets, mats, done, Cell(n, Some(keys[t])));
      assert keys[..t + 1] == keys[..t] + [keys[t]];
      SameCellSameVerdict(reg, sets, mats, n, parts, keys[t], one, parts[keys[t] := one]);
      parts := parts[keys[t] := one];
      any := any || one.stale;
    }
    assert keys[..|keys|] == keys;
    return Staleness(any, [], parts);
  }

  /** Every asset's verdict, in one pass over the dependency order. */
  method AllStaleness(reg: Registry, sets: Sets, mats: Mats) returns (out: map<Name, Staleness>)
    requires reg.Valid() && SetsFor(reg, sets)
    ensures out.Keys == reg.byName.Keys
    ensures forall a :: a in out ==> AssetVerdict(reg, sets, mats, a, out[a])
  {
    out := map[];
    for i := 0 to |reg.metas|
      invariant Verdicts(reg, sets, mats, out, i)
    {
      var name := reg.metas[i].name;
      var s;
      if name in sets {
        s := KeyVerdicts(reg, sets, mats, out, name);
      } else {
        s := OneStaleness(reg, sets, mats, out, Cell(name, None));
      }
      out := out[name := s];
    }
  }
}
