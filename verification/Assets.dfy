/**
 * The asset registry of src/asset.rs and what one partition reads of a dep
 * (src/partition.rs): assets in dependency order, the ops that produce them,
 * and where every asset came from.
 */
module Assets {
  import opened Prelude
  import Graph

  type Name = string
  type Key = string
  type Print = string

  datatype Value = Null | Text(text: string) | Object(fields: map<string, Value>)

  // ----------------------------------------------------------- mappings

  /** Which of a dep's keys one partition reads; the calendar arithmetic is a parameter. */
  datatype Mapping =
    | Identity
    | All
    | Covering(window: Key -> seq<Key>)
    | Offset(step: Key -> Option<Key>)
  {
    predicate ReadsOne() { Identity? || Offset? }
  }

  datatype Reads = Reads(keys: seq<Key>, missing: seq<Key>)

  function ReadAt(key: Option<Key>): Reads {
    Reads(if key.Some? then [key.value] else [], [])
  }

  predicate After(a: string, b: string) {
    if a == [] then false
    else if b == [] then true
    else if a[0] == b[0] then After(a[1..], b[1..])
    else a[0] > b[0]
  }

  // The window's keys a dep holds, and the ones it will never hold: a key past the
  // last one held is only not due yet.
  function Held(covered: seq<Key>, dep: seq<Key>): Reads {
    if covered == [] then Reads([], [])
    else
      var k := covered[0];
      var rest := Held(covered[1..], dep);
      if k in dep then rest.(keys := [k] + rest.keys)
      else if dep != [] && After(k, dep[|dep| - 1]) then rest
      else rest.(missing := [k] + rest.missing)
  }

  function Resolve(m: Mapping, key: Option<Key>, dep: seq<Key>): Reads {
    match m
    case Identity => ReadAt(key)
    case All => Reads(dep, [])
    case Covering(window) => if key.Some? then Held(window(key.value), dep) else Reads([], [])
    case Offset(step) =>
      if key.Some? && step(key.value).Some? && step(key.value).value in dep
      then Reads([step(key.value).value], [])
      else Reads([], [])
  }

  lemma {:induction false} HeldWithin(covered: seq<Key>, dep: seq<Key>)
    ensures forall k :: k in Held(covered, dep).keys <==> k in covered && k in dep
    ensures forall k :: k in Held(covered, dep).missing ==> k in covered && k !in dep
  {
    if covered != [] {
      HeldWithin(covered[1..], dep);
    }
  }

  /** A mapping other than identity takes keys the dep holds, and misses keys it does not. */
  lemma MappedWithin(m: Mapping, key: Option<Key>, dep: seq<Key>)
    requires !m.Identity?
    ensures forall k :: k in Resolve(m, key, dep).keys ==> k in dep
    ensures forall k :: k in Resolve(m, key, dep).missing ==> k !in dep
  {
    if m.Covering? && key.Some? {
      HeldWithin(m.window(key.value), dep);
    }
  }

  /** The first place two strings part, `a` there being the greater, or the longer of the two. */
  ghost predicate AheadAt(a: string, b: string, k: nat) {
    k < |a| && k <= |b| && a[..k] == b[..k] && (k == |b| || a[k] > b[k])
  }

  ghost predicate Ahead(a: string, b: string) {
    exists k :: AheadAt(a, b, k)
  }

  lemma AheadInTail(a: string, b: string, k: nat)
    requires a != [] && b != [] && a[0] == b[0]
    ensures AheadAt(a, b, k + 1) <==> AheadAt(a[1..], b[1..], k)
    ensures !AheadAt(a, b, 0)
  {
    if k < |a| - 1 && k <= |b| - 1 {
      assert a[..k + 1] == [a[0]] + a[1..][..k] && b[..k + 1] == [b[0]] + b[1..][..k];
      assert a[..k + 1] == b[..k + 1] ==> a[..k + 1][1..] == b[..k + 1][1..];
      assert a[..k + 1][1..] == a[1..][..k] && b[..k + 1][1..] == b[1..][..k];
    }
  }

  /** One string is after another in the order of their characters. */
  lemma {:induction false} AfterIff(a: string, b: string)
    ensures After(a, b) <==> Ahead(a, b)
  {
    if a != [] && b != [] && a[0] == b[0] {
      AfterIff(a[1..], b[1..]);
      if k: nat :| AheadAt(a[1..], b[1..], k) {
        AheadInTail(a, b, k);
      }
      if k: nat :| AheadAt(a, b, k) {
        AheadInTail(a, b, 0);
        AheadInTail(a, b, k - 1);
      }
    } else if a != [] {
      assert AheadAt(a, b, 0) <==> b == [] || a[0] > b[0];
      if k: nat :| AheadAt(a, b, k) && k > 0 {
        assert a[..k][0] == b[..k][0];
      }
    }
  }

  // A key that is not due yet: after the last one its set holds.
  ghost predicate NotDue(k: Key, held: seq<Key>) {
    held != [] && Ahead(k, held[|held| - 1])
  }

  /** A window takes the keys held, and misses the others but for those not due yet. */
  lemma {:induction false} HeldIff(covered: seq<Key>, dep: seq<Key>, k: Key)
    ensures k in Held(covered, dep).keys <==> k in covered && k in dep
    ensures k in Held(covered, dep).missing <==> k in covered && k !in dep && !NotDue(k, dep)
  {
    if covered != [] {
      HeldIff(covered[1..], dep, k);
      if dep != [] {
        AfterIff(covered[0], dep[|dep| - 1]);
      }
    }
  }

  lemma HeldFirst(k: Key, rest: seq<Key>, dep: seq<Key>)
    ensures var first := if k in dep then [k] else [];
            Held([k] + rest, dep).keys == first + Held(rest, dep).keys
    ensures var first := if k in dep || (dep != [] && After(k, dep[|dep| - 1])) then [] else [k];
            Held([k] + rest, dep).missing == first + Held(rest, dep).missing
  {
    assert ([k] + rest)[1..] == rest;
  }

  /** It does so key by key, in the window's order. */
  lemma {:induction false} HeldInOrder(before: seq<Key>, after: seq<Key>, dep: seq<Key>)
    ensures Held(before + after, dep).keys == Held(before, dep).keys + Held(after, dep).keys
    ensures Held(before + after, dep).missing == Held(before, dep).missing + Held(after, dep).missing
  {
    if before == [] {
      assert before + after == after;
    } else {
      HeldInOrder(before[1..], after, dep);
      HeldFirst(before[0], before[1..], dep);
      HeldFirst(before[0], before[1..] + after, dep);
      assert [before[0]] + before[1..] == before;
      assert [before[0]] + (before[1..] + after) == before + after;
    }
  }

  /** What a reader at a key reads of a dep, mapping by mapping, and which of its reads the dep will never hold. */
  lemma ReadsSay(maps: map<Name, Mapping>, dep: Name, key: Option<Key>, held: seq<Key>, k: Key)
    ensures dep !in maps || maps[dep].Identity? ==>
              Resolve(MappingOf(maps, dep), key, held) == Reads(if key.Some? then [key.value] else [], [])
    ensures dep in maps && maps[dep].All? ==> Resolve(MappingOf(maps, dep), key, held) == Reads(held, [])
    ensures dep in maps && maps[dep].Offset? ==>
              Resolve(MappingOf(maps, dep), key, held).missing == []
              && (forall i :: Resolve(MappingOf(maps, dep), key, held).keys == [i] <==>
                    key.Some? && maps[dep].step(key.value) == Some(i) && i in held)
              && |Resolve(MappingOf(maps, dep), key, held).keys| <= 1
    ensures dep in maps && maps[dep].Covering? && key.None? ==>
              Resolve(MappingOf(maps, dep), key, held) == Reads([], [])
    ensures dep in maps && maps[dep].Covering? && key.Some? ==>
              && (k in Resolve(MappingOf(maps, dep), key, held).keys <==> k in maps[dep].window(key.value) && k in held)
              && (k in Resolve(MappingOf(maps, dep), key, held).missing <==>
                    k in maps[dep].window(key.value) && k !in held && !NotDue(k, held))
  {
    if dep in maps && maps[dep].Covering? && key.Some? {
      HeldIff(maps[dep].window(key.value), held, k);
    }
  }

  // ----------------------------------------------------------- assets and ops

  datatype Partitions = Partitions(limit: nat)

  datatype AssetMeta = AssetMeta(
    name: Name,
    source: bool,
    group: Option<string>,
    deps: seq<Name>,
    maps: map<Name, Mapping>,
    op: Option<Name>,
    partitions: Option<Partitions>)

  datatype OpMeta = OpMeta(
    name: Name,
    produces: seq<Name>,
    deps: seq<Name>,
    maps: map<Name, Mapping>,
    partitions: Option<Partitions>)

  function MappingOf(maps: map<Name, Mapping>, dep: Name): Mapping {
    if dep in maps then maps[dep] else Identity
  }

  datatype Registry = Registry(metas: seq<AssetMeta>, byName: map<Name, nat>, ops: seq<OpMeta>, byOp: map<Name, nat>)
  {
    ghost predicate NamesIndexed() {
      && (forall i :: 0 <= i < |metas| ==> metas[i].name in byName && byName[metas[i].name] == i)
      && forall n :: n in byName ==> byName[n] < |metas| && metas[byName[n]].name == n
    }

    ghost predicate OpsIndexed() {
      && (forall i :: 0 <= i < |ops| ==> ops[i].name in byOp && byOp[ops[i].name] == i)
      && forall n :: n in byOp ==> byOp[n] < |ops| && ops[byOp[n]].name == n
    }

    ghost predicate Valid() {
      && NamesIndexed()
      && OpsIndexed()
      && (forall i :: 0 <= i < |metas| ==> ValidMeta(i))
      && (forall i :: 0 <= i < |ops| ==> ValidOp(ops[i]))
      && OpsSorted()
      // ops and assets share one set of names
      && forall o :: o in ops && o.name in byName ==> o.name in o.produces
    }

    ghost predicate OpsSorted() {
      forall i, j :: 0 <= i < j < |ops| ==> Least(ops[i].produces) <= Least(ops[j].produces)
    }

    ghost predicate ValidMeta(i: nat)
      requires i < |metas| && NamesIndexed() && OpsIndexed()
    {
      var m := metas[i];
      && (forall d :: d in m.deps ==> d in byName && byName[d] < i && ValidEdge(m, d))
      && (m.source ==> m.deps == [] && m.op == None && m.partitions == None)
      && (!m.source ==> m.op.Some? && m.op.value in byOp && m.name in ops[byOp[m.op.value]].produces)
    }

    // what `check_partition_deps` leaves: an unpartitioned dep is read whole, and
    // an unpartitioned reader takes every key of a partitioned one
    ghost predicate ValidEdge(m: AssetMeta, d: Name)
      requires NamesIndexed() && d in byName
    {
      && (Meta(d).partitions.None? ==> MappingOf(m.maps, d).Identity?)
      && (Meta(d).partitions.Some? && m.partitions.None? ==> MappingOf(m.maps, d).All?)
    }

    ghost predicate ValidOp(o: OpMeta)
      requires NamesIndexed()
    {
      && o.produces != [] && NoRepeats(o.produces)
      && (forall a :: a in o.produces ==> a in byName && Makes(o, Meta(a)))
      && (o.partitions.Some? ==> o.produces == [o.name])
    }

    function Meta(n: Name): (m: AssetMeta)
      requires NamesIndexed() && n in byName
      ensures m.name == n && m in metas
    {
      metas[byName[n]]
    }

    function Op(n: Name): (o: OpMeta)
      requires OpsIndexed() && n in byOp
      ensures o.name == n && o in ops
    {
      ops[byOp[n]]
    }

    ghost function Rank(n: Name): nat {
      if n in byName then byName[n] else 0
    }

    /** The least topo index of what an op produces. */
    ghost function Least(produces: seq<Name>): nat
    {
      if |produces| == 0 then 0
      else if |produces| == 1 then Rank(produces[0])
      else
        var rest := Least(produces[1..]);
        if Rank(produces[0]) < rest then Rank(produces[0]) else rest
    }

    predicate IsSource(n: Name) {
      n in byName && byName[n] < |metas| && metas[byName[n]].source
    }

    /** The op that makes an asset; meaningful for a derived asset of a valid registry. */
    function OpFor(n: Name): OpMeta {
      if n in byName && byName[n] < |metas| && metas[byName[n]].op.Some? && metas[byName[n]].op.value in byOp
         && byOp[metas[byName[n]].op.value] < |ops|
      then ops[byOp[metas[byName[n]].op.value]]
      else OpMeta(n, [n], [], map[], None)
    }

    /** What a run knows an asset by: its op, or a source's own name. */
    function Producer(n: Name): Name
      requires NamesIndexed()
    {
      if n in byName && Meta(n).op.Some? then Meta(n).op.value else n
    }
  }

  ghost predicate Makes(o: OpMeta, m: AssetMeta) {
    && !m.source && m.op == Some(o.name)
    && m.deps == o.deps && m.maps == o.maps && m.partitions == o.partitions
  }

  // ----------------------------------------------------------- op order

  lemma {:induction false} LeastIsLeast(reg: Registry, produces: seq<Name>)
    requires produces != []
    ensures forall a :: a in produces ==> reg.Least(produces) <= reg.Rank(a)
    ensures exists a :: a in produces && reg.Rank(a) == reg.Least(produces)
  {
    if |produces| > 1 {
      LeastIsLeast(reg, produces[1..]);
      assert produces == [produces[0]] + produces[1..];
    } else {
      assert produces[0] in produces;
    }
  }

  lemma LeastOrders(reg: Registry, p: OpMeta, o: OpMeta)
    requires reg.OpsIndexed() && reg.OpsSorted() && p in reg.ops && o in reg.ops
    requires reg.Least(p.produces) < reg.Least(o.produces)
    ensures reg.byOp[p.name] < reg.byOp[o.name]
  {
    var i :| 0 <= i < |reg.ops| && reg.ops[i] == p;
    var j :| 0 <= j < |reg.ops| && reg.ops[j] == o;
    assert reg.byOp[p.name] == i && reg.byOp[o.name] == j;
  }

  /** Every derived asset has an op, and that op makes it. */
  lemma ProducerMakes(reg: Registry, a: Name)
    requires reg.Valid() && a in reg.byName && !reg.Meta(a).source
    ensures reg.Producer(a) in reg.byOp && a in reg.Op(reg.Producer(a)).produces
    ensures Makes(reg.Op(reg.Producer(a)), reg.Meta(a))
    ensures reg.OpFor(a) == reg.Op(reg.Producer(a))
  {
    assert reg.ValidMeta(reg.byName[a]);
    assert reg.ValidOp(reg.Op(reg.Producer(a)));
  }

  /**
   * Registry ops are in dependency order even when one op makes several assets:
   * the op producing a dep comes strictly before every op that reads it.
   */
  lemma ProducerComesFirst(reg: Registry, o: OpMeta, dep: Name)
    requires reg.Valid() && o in reg.ops && dep in o.deps && dep in reg.byName && !reg.Meta(dep).source
    ensures reg.Producer(dep) in reg.byOp && reg.byOp[reg.Producer(dep)] < reg.byOp[o.name]
  {
    assert reg.ValidOp(o);
    LeastIsLeast(reg, o.produces);
    var first :| first in o.produces && reg.Rank(first) == reg.Least(o.produces);
    OpDepsRank(reg, o, first, dep);
    ProducerMakes(reg, dep);
    var p := reg.Op(reg.Producer(dep));
    LeastIsLeast(reg, p.produces);
    LeastOrders(reg, p, o);
  }

  /** Every dep of an op is registered, and ranks below everything the op produces. */
  lemma OpDepsRank(reg: Registry, o: OpMeta, a: Name, dep: Name)
    requires reg.Valid() && o in reg.ops && a in o.produces && dep in o.deps
    ensures a in reg.byName && dep in reg.byName && reg.byName[dep] < reg.byName[a]
    ensures reg.ValidEdge(reg.Meta(a), dep)
  {
    assert Makes(o, reg.Meta(a)) && reg.ValidMeta(reg.byName[a]);
  }

  // ----------------------------------------------------------- building the registry

  datatype BuildError =
    | BadGraph(error: Graph.GraphError)
    | BadMapping(asset: Name, dep: Name)
    | DuplicateMulti(op: Name)
    | OpNamedAsAsset(op: Name)

  ghost predicate BackedBy(m: AssetMeta, o: OpMeta) {
    Makes(o, m) && m.name in o.produces
  }

  /** What lowering the declared assets and multi-assets hands over. */
  ghost predicate Lowered(metas: seq<AssetMeta>, ops: seq<OpMeta>) {
    && (forall i :: 0 <= i < |metas| ==>
          if metas[i].source then metas[i].deps == [] && metas[i].op == None && metas[i].partitions == None
          else exists k :: 0 <= k < |ops| && BackedBy(metas[i], ops[k]))
    && (forall k, a :: 0 <= k < |ops| && a in ops[k].produces ==>
          exists i :: 0 <= i < |metas| && metas[i].name == a && Makes(ops[k], metas[i]))
    && forall k :: 0 <= k < |ops| ==>
         ops[k].produces != [] && NoRepeats(ops[k].produces)
         && (ops[k].partitions.Some? ==> ops[k].produces == [ops[k].name])
  }

  function Pairs(metas: seq<AssetMeta>): (pairs: seq<Graph.Op>)
    ensures |pairs| == |metas|
    ensures forall i :: 0 <= i < |metas| ==> pairs[i] == Graph.Op(metas[i].name, metas[i].deps)
  {
    seq(|metas|, i requires 0 <= i < |metas| => Graph.Op(metas[i].name, metas[i].deps))
  }

  predicate PartitionedIn(metas: seq<AssetMeta>, dep: Name) {
    exists i :: 0 <= i < |metas| && metas[i].name == dep && metas[i].partitions.Some?
  }

  predicate EdgeAllowed(metas: seq<AssetMeta>, m: AssetMeta, dep: Name) {
    if !PartitionedIn(metas, dep) then MappingOf(m.maps, dep).Identity?
    else m.partitions.None? ==> MappingOf(m.maps, dep).All?
  }

  /** A dep without keys is read whole, and one with keys is read whole by a reader without. */
  ghost predicate EveryEdgeReadable(metas: seq<AssetMeta>) {
    forall i, d :: 0 <= i < |metas| && d in metas[i].deps ==> EdgeReadable(metas, metas[i], d)
  }

  ghost predicate EdgeReadable(metas: seq<AssetMeta>, m: AssetMeta, d: Name) {
    && ((forall j :: 0 <= j < |metas| && metas[j].name == d ==> metas[j].partitions.None?) ==>
          d in m.maps ==> m.maps[d].Identity?)
    && ((exists j :: 0 <= j < |metas| && metas[j].name == d && metas[j].partitions.Some?) ==>
          m.partitions.None? ==> d in m.maps && m.maps[d].All?)
  }

  lemma EdgesReadable(metas: seq<AssetMeta>)
    ensures EveryEdgeReadable(metas) <==>
            forall i, d :: 0 <= i < |metas| && d in metas[i].deps ==> EdgeAllowed(metas, metas[i], d)
  {
    forall i, d | 0 <= i < |metas| && d in metas[i].deps
      ensures EdgeReadable(metas, metas[i], d) <==> EdgeAllowed(metas, metas[i], d)
    {
    }
  }

  method CheckPartitionDeps(metas: seq<AssetMeta>) returns (r: Result<(), BuildError>)
    ensures r.Ok? <==> forall i, d :: 0 <= i < |metas| && d in metas[i].deps ==> EdgeAllowed(metas, metas[i], d)
    ensures r.Err? ==> exists i, d :: 0 <= i < |metas| && d in metas[i].deps && !EdgeAllowed(metas, metas[i], d)
                                      && r.error == BadMapping(metas[i].name, d)
    ensures r.Ok? <==> EveryEdgeReadable(metas)
  {
    EdgesReadable(metas);
    for i := 0 to |metas|
      invariant forall k, d :: 0 <= k < i && d in metas[k].deps ==> EdgeAllowed(metas, metas[k], d)
    {
      var m := metas[i];
      for t := 0 to |m.deps|
        invariant forall k :: 0 <= k < t ==> EdgeAllowed(metas, m, m.deps[k])
      {
        if !EdgeAllowed(metas, m, m.deps[t]) {
          return Err(BadMapping(m.name, m.deps[t]));
        }
      }
    }
    return Ok(());
  }

  method IndexOps(ops: seq<OpMeta>) returns (r: Result<map<Name, nat>, BuildError>)
    ensures r.Ok? <==> forall i, j :: 0 <= i < j < |ops| ==> ops[i].name != ops[j].name
    ensures r.Err? ==> r.error.DuplicateMulti?
    ensures r.Ok? ==> (forall i :: 0 <= i < |ops| ==> ops[i].name in r.value && r.value[ops[i].name] == i)
                      && forall n :: n in r.value ==> r.value[n] < |ops| && ops[r.value[n]].name == n
  {
    var index: map<Name, nat> := map[];
    for i := 0 to |ops|
      invariant forall k :: 0 <= k < i ==> ops[k].name in index && index[ops[k].name] == k
      invariant forall n :: n in index ==> index[n] < i && ops[index[n]].name == n
      invariant forall k, j :: 0 <= k < j < i ==> ops[k].name != ops[j].name
    {
      if ops[i].name in index {
        return Err(DuplicateMulti(ops[i].name));
      }
      index := index[ops[i].name := i];
    }
    return Ok(index);
  }

  ghost predicate SortedBy(keys: map<Name, nat>, ops: seq<OpMeta>) {
    && (forall k :: 0 <= k < |ops| ==> ops[k].name in keys)
    && forall i, j :: 0 <= i < j < |ops| ==> keys[ops[i].name] <= keys[ops[j].name]
  }

  method LeastIndex(produces: seq<Name>, byName: map<Name, nat>, ghost reg: Registry) returns (least: nat)
    requires produces != [] && reg.byName == byName && forall a :: a in produces ==> a in byName
    ensures least == reg.Least(produces)
  {
    var i := |produces| - 1;
    least := byName[produces[i]];
    while i > 0
      invariant 0 <= i < |produces| && least == reg.Least(produces[i..])
    {
      i := i - 1;
      assert produces[i..][1..] == produces[i + 1..];
      if byName[produces[i]] < least {
        least := byName[produces[i]];
      }
    }
    assert produces[0..] == produces;
  }

  ghost predicate InsertsAt(keys: map<Name, nat>, sorted: seq<OpMeta>, at: nat, op: OpMeta) {
    && at <= |sorted| && SortedBy(keys, sorted) && op.name in keys
    && (at > 0 ==> keys[sorted[at - 1].name] <= keys[op.name])
    && (at < |sorted| ==> keys[op.name] < keys[sorted[at].name])
  }

  lemma InsertKeepsSorted(keys: map<Name, nat>, sorted: seq<OpMeta>, at: nat, op: OpMeta)
    requires InsertsAt(keys, sorted, at, op)
    ensures SortedBy(keys, sorted[..at] + [op] + sorted[at..])
  {
    var after := sorted[..at] + [op] + sorted[at..];
    forall k | 0 <= k < |after| ensures after[k].name in keys {
      assert after[k] == if k < at then sorted[k] else if k == at then op else sorted[k - 1];
    }
    forall i, j | 0 <= i < j < |after| ensures keys[after[i].name] <= keys[after[j].name] {
      assert after[i] == if i < at then sorted[i] else if i == at then op else sorted[i - 1];
      assert after[j] == if j < at then sorted[j] else if j == at then op else sorted[j - 1];
    }
  }

  lemma InsertAdds<T>(s: seq<T>, at: nat, x: T)
    requires at <= |s|
    ensures multiset(s[..at] + [x] + s[at..]) == multiset(s) + multiset{x}
  {
    assert s == s[..at] + s[at..];
  }

  method InsertOp(sorted0: seq<OpMeta>, op: OpMeta, keys: map<Name, nat>) returns (sorted: seq<OpMeta>)
    requires SortedBy(keys, sorted0) && op.name in keys
    ensures SortedBy(keys, sorted) && multiset(sorted) == multiset(sorted0) + multiset{op}
  {
    var at := |sorted0|;
    while at > 0 && keys[sorted0[at - 1].name] > keys[op.name]
      invariant 0 <= at <= |sorted0|
      invariant at < |sorted0| ==> keys[op.name] < keys[sorted0[at].name]
    {
      at := at - 1;
    }
    InsertKeepsSorted(keys, sorted0, at, op);
    InsertAdds(sorted0, at, op);
    sorted := sorted0[..at] + [op] + sorted0[at..];
  }

  /** A stable sort of the ops by the key each was given. */
  method SortOps(ops: seq<OpMeta>, keys: map<Name, nat>) returns (sorted: seq<OpMeta>)
    requires forall k :: 0 <= k < |ops| ==> ops[k].name in keys
    ensures SortedBy(keys, sorted) && multiset(sorted) == multiset(ops)
  {
    sorted := [];
    for i := 0 to |ops|
      invariant SortedBy(keys, sorted) && multiset(sorted) == multiset(ops[..i])
    {
      sorted := InsertOp(sorted, ops[i], keys);
      assert ops[..i + 1] == ops[..i] + [ops[i]];
    }
    assert ops[..|ops|] == ops;
  }

  // The order a topological sort gave, as metas and their index.
  ghost predicate OrderedBy(metas: seq<AssetMeta>, order: seq<nat>, ordered: seq<AssetMeta>) {
    && |ordered| == |order|
    && forall k :: 0 <= k < |order| ==> order[k] < |metas| && ordered[k] == metas[order[k]]
  }

  lemma OrderedDistinct(metas: seq<AssetMeta>, order: seq<nat>, ordered: seq<AssetMeta>, i: nat, j: nat)
    requires Graph.UniqueNames(Pairs(metas)) && NoRepeats(order) && OrderedBy(metas, order, ordered)
    requires i < j < |ordered|
    ensures ordered[i].name != ordered[j].name
  {
    assert order[i] != order[j];
    assert Pairs(metas)[order[i]].name != Pairs(metas)[order[j]].name;
  }

  lemma OrderedPlace(metas: seq<AssetMeta>, order: seq<nat>, ordered: seq<AssetMeta>, i: nat) returns (k: nat)
    requires Graph.Topological(Pairs(metas), order) && OrderedBy(metas, order, ordered) && i < |metas|
    ensures k < |ordered| && ordered[k] == metas[i]
  {
    assert i in order;
    k :| 0 <= k < |order| && order[k] == i;
  }

  /** A dep is registered strictly before the asset that reads it. */
  lemma DepBefore(metas: seq<AssetMeta>, order: seq<nat>, ordered: seq<AssetMeta>, k: nat, d: Name) returns (j: nat)
    requires Graph.UniqueNames(Pairs(metas)) && Graph.DepsKnown(Pairs(metas))
    requires Graph.Topological(Pairs(metas), order) && OrderedBy(metas, order, ordered)
    requires k < |ordered| && d in ordered[k].deps
    ensures j < k && ordered[j].name == d
  {
    var pairs := Pairs(metas);
    assert d in pairs[order[k]].deps && Graph.Declared(pairs, d);
    var i: nat :| i < |pairs| && pairs[i].name == d;
    assert Graph.DependsOn(pairs, order[k], i);
    j :| 0 <= j < |order[..k]| && order[..k][j] == i;
  }

  method IndexMetas(ordered: seq<AssetMeta>) returns (byName: map<Name, nat>)
    requires forall i, j :: 0 <= i < j < |ordered| ==> ordered[i].name != ordered[j].name
    ensures Registry(ordered, byName, [], map[]).NamesIndexed()
  {
    byName := map[];
    for i := 0 to |ordered|
      invariant forall k :: 0 <= k < i ==> ordered[k].name in byName && byName[ordered[k].name] == k
      invariant forall n :: n in byName ==> byName[n] < i && ordered[byName[n]].name == n
    {
      byName := byName[ordered[i].name := i];
    }
  }

  method CheckOpNames(ops: seq<OpMeta>, byName: map<Name, nat>) returns (r: Result<(), BuildError>)
    ensures r.Ok? <==> (forall o :: o in ops && o.name in byName ==> o.name in o.produces)
                       && forall i, j :: 0 <= i < j < |ops| ==> ops[i].name != ops[j].name
    ensures r.Err? ==> r.error.DuplicateMulti? || r.error.OpNamedAsAsset?
  {
    for i := 0 to |ops|
      invariant forall k :: 0 <= k < i && ops[k].name in byName ==> ops[k].name in ops[k].produces
    {
      if ops[i].name in byName && ops[i].name !in ops[i].produces {
        assert ops[i] in ops;
        return Err(OpNamedAsAsset(ops[i].name));
      }
    }
    var indexed := IndexOps(ops);
    return if indexed.Ok? then Ok(()) else Err(indexed.error);
  }

  method LeastKeys(reg: Registry, ops: seq<OpMeta>) returns (keys: map<Name, nat>)
    requires reg.NamesIndexed()
    requires forall i, j :: 0 <= i < j < |ops| ==> ops[i].name != ops[j].name
    requires forall o, a :: o in ops && a in o.produces ==> a in reg.byName
    requires forall o :: o in ops ==> o.produces != []
    ensures forall k :: 0 <= k < |ops| ==> ops[k].name in keys && keys[ops[k].name] == reg.Least(ops[k].produces)
  {
    keys := map[];
    for i := 0 to |ops|
      invariant forall k :: 0 <= k < i ==> ops[k].name in keys && keys[ops[k].name] == reg.Least(ops[k].produces)
    {
      assert ops[i] in ops;
      var least := LeastIndex(ops[i].produces, reg.byName, reg);
      keys := keys[ops[i].name := least];
    }
  }

  // Facts about the declarations carried over to the ordered registry.
  ghost predicate Arranged(metas: seq<AssetMeta>, ops: seq<OpMeta>, order: seq<nat>, ordered: seq<AssetMeta>) {
    && Lowered(metas, ops)
    && Graph.UniqueNames(Pairs(metas)) && Graph.DepsKnown(Pairs(metas))
    && Graph.Topological(Pairs(metas), order) && OrderedBy(metas, order, ordered)
    && forall i, d :: 0 <= i < |metas| && d in metas[i].deps ==> EdgeAllowed(metas, metas[i], d)
  }

  lemma ArrangedOp(metas: seq<AssetMeta>, ops: seq<OpMeta>, order: seq<nat>, ordered: seq<AssetMeta>, reg: Registry,
                   o: OpMeta)
    requires Arranged(metas, ops, order, ordered) && o in ops
    requires reg.metas == ordered && reg.NamesIndexed()
    ensures reg.ValidOp(o)
  {
    forall a | a in o.produces ensures a in reg.byName && Makes(o, reg.Meta(a)) {
      var k :| 0 <= k < |ops| && ops[k] == o;
      var i :| 0 <= i < |metas| && metas[i].name == a && Makes(o, metas[i]);
      var at := OrderedPlace(metas, order, ordered, i);
      assert reg.metas[at].name == a;
    }
  }

  lemma ArrangedMeta(metas: seq<AssetMeta>, ops: seq<OpMeta>, order: seq<nat>, ordered: seq<AssetMeta>, reg: Registry,
                     i: nat)
    requires Arranged(metas, ops, order, ordered) && i < |ordered|
    requires reg.metas == ordered && reg.NamesIndexed() && reg.OpsIndexed()
    requires forall o :: o in ops ==> o in reg.ops
    ensures reg.ValidMeta(i)
  {
    var m := ordered[i];
    assert m == metas[order[i]];
    forall d | d in m.deps ensures d in reg.byName && reg.byName[d] < i && reg.ValidEdge(m, d) {
      var j := DepBefore(metas, order, ordered, i, d);
      assert EdgeAllowed(metas, metas[order[i]], d);
      assert reg.Meta(d) == metas[order[j]];
      SoleDeclaration(metas, order[j], d);
    }
    if !m.source {
      var k :| 0 <= k < |ops| && BackedBy(m, ops[k]);
      assert ops[k] in reg.ops;
    }
  }

  lemma SoleDeclaration(metas: seq<AssetMeta>, j: nat, d: Name)
    requires Graph.UniqueNames(Pairs(metas)) && j < |metas| && metas[j].name == d
    ensures PartitionedIn(metas, d) <==> metas[j].partitions.Some?
  {
    forall i | 0 <= i < |metas| && metas[i].name == d ensures i == j {
      assert Pairs(metas)[i].name == Pairs(metas)[j].name;
    }
  }

  ghost predicate GraphOrders(metas: seq<AssetMeta>) {
    Graph.UniqueNames(Pairs(metas)) && Graph.DepsKnown(Pairs(metas)) && Graph.Acyclic(Pairs(metas))
  }

  ghost predicate MappingsAllowed(metas: seq<AssetMeta>) {
    forall i, d :: 0 <= i < |metas| && d in metas[i].deps ==> EdgeAllowed(metas, metas[i], d)
  }

  ghost predicate OpNamesClear(metas: seq<AssetMeta>, ops: seq<OpMeta>) {
    && (forall i, j :: 0 <= i < j < |ops| ==> ops[i].name != ops[j].name)
    && forall o, i :: o in ops && 0 <= i < |metas| && metas[i].name == o.name ==> o.name in o.produces
  }

  /**
   * The registry: assets in the least topological order of their deps, ops
   * sorted by the first asset each makes. It exists exactly when the asset
   * graph orders, every mapping is one its pair of assets allows, and op names
   * are unique and clear of the assets they do not make.
   */
  method New(metas: seq<AssetMeta>, ops: seq<OpMeta>) returns (r: Result<Registry, BuildError>)
    requires Lowered(metas, ops)
    ensures r.Ok? ==> r.value.Valid() && multiset(r.value.ops) == multiset(ops)
    ensures r.Ok? ==>
              exists order :: Graph.LeastTopological(Pairs(metas), order) && OrderedBy(metas, order, r.value.metas)
    ensures r.Ok? <==> GraphOrders(metas) && MappingsAllowed(metas) && OpNamesClear(metas, ops)
    ensures r.Err? && r.error.BadGraph? <==> !GraphOrders(metas)
  {
    var sorted := Graph.TopoOrder(Pairs(metas));
    if sorted.Err? {
      return Err(BadGraph(sorted.error));
    }
    ghost var order :| Graph.LeastTopological(Pairs(metas), order) && sorted.value == Graph.Names(Pairs(metas), order);
    var edges := CheckPartitionDeps(metas);
    if edges.Err? {
      return Err(edges.error);
    }
    var ordered := PutInOrder(metas, sorted.value, order);
    forall i, j | 0 <= i < j < |ordered| ensures ordered[i].name != ordered[j].name {
      OrderedDistinct(metas, order, ordered, i, j);
    }
    var byName := IndexMetas(ordered);
    forall n ensures n in byName <==> exists i :: 0 <= i < |metas| && metas[i].name == n {
      NamedOnce(metas, order, ordered, byName, n);
    }
    var named := CheckOpNames(ops, byName);
    if named.Err? {
      return Err(named.error);
    }
    var reg0 := Registry(ordered, byName, [], map[]);
    forall o | o in ops ensures reg0.ValidOp(o) {
      ArrangedOp(metas, ops, order, ordered, reg0, o);
    }
    var keys := LeastKeys(reg0, ops);
    var sortedOps := SortOps(ops, keys);
    SameMembers(ops, sortedOps);
    DistinctKept(ops, sortedOps);
    var byOp := IndexOps(sortedOps);
    var reg := Registry(ordered, byName, sortedOps, byOp.value);
    RegistryValid(metas, ops, order, reg0, keys, reg);
    return Ok(reg);
  }

  lemma NamedOnce(metas: seq<AssetMeta>, order: seq<nat>, ordered: seq<AssetMeta>, byName: map<Name, nat>, n: Name)
    requires Graph.Topological(Pairs(metas), order) && OrderedBy(metas, order, ordered)
    requires Registry(ordered, byName, [], map[]).NamesIndexed()
    ensures n in byName <==> exists i :: 0 <= i < |metas| && metas[i].name == n
  {
    if n in byName {
      assert metas[order[byName[n]]].name == n;
    }
    if i :| 0 <= i < |metas| && metas[i].name == n {
      var k := OrderedPlace(metas, order, ordered, i);
    }
  }

  method PutInOrder(metas: seq<AssetMeta>, names: seq<Name>, ghost order: seq<nat>) returns (ordered: seq<AssetMeta>)
    requires Graph.UniqueNames(Pairs(metas)) && Graph.Topological(Pairs(metas), order)
    requires names == Graph.Names(Pairs(metas), order)
    ensures OrderedBy(metas, order, ordered)
  {
    var byDeclared: map<Name, AssetMeta> := map[];
    for i := 0 to |metas|
      invariant forall k :: 0 <= k < i ==> metas[k].name in byDeclared && byDeclared[metas[k].name] == metas[k]
    {
      assert forall k :: 0 <= k < i ==> Pairs(metas)[k].name != Pairs(metas)[i].name;
      byDeclared := byDeclared[metas[i].name := metas[i]];
    }
    ordered := [];
    for k := 0 to |names|
      invariant |ordered| == k
      invariant forall j :: 0 <= j < k ==> order[j] < |metas| && ordered[j] == metas[order[j]]
    {
      assert order[k] in order && names[k] == metas[order[k]].name;
      ordered := ordered + [byDeclared[names[k]]];
    }
  }

  lemma SameMembers<T>(a: seq<T>, b: seq<T>)
    requires multiset(a) == multiset(b)
    ensures forall x :: x in a <==> x in b
  {
    forall x ensures x in a <==> x in b {
      assert x in multiset(a) <==> x in multiset(b);
    }
  }

  lemma {:induction false} CountOfDistinct(ops: seq<OpMeta>, o: OpMeta)
    requires forall i, j :: 0 <= i < j < |ops| ==> ops[i].name != ops[j].name
    ensures multiset(ops)[o] <= 1
  {
    if ops != [] {
      var n := |ops| - 1;
      assert ops == ops[..n] + [ops[n]];
      CountOfDistinct(ops[..n], o);
      if o == ops[n] {
        assert o !in ops[..n];
      }
    }
  }

  lemma DistinctKept(ops: seq<OpMeta>, sorted: seq<OpMeta>)
    requires multiset(ops) == multiset(sorted)
    requires forall i, j :: 0 <= i < j < |ops| ==> ops[i].name != ops[j].name
    ensures forall i, j :: 0 <= i < j < |sorted| ==> sorted[i].name != sorted[j].name
  {
    SameMembers(ops, sorted);
    forall i, j | 0 <= i < j < |sorted| ensures sorted[i].name != sorted[j].name {
      if sorted[i].name == sorted[j].name {
        assert sorted[i] in ops && sorted[j] in ops;
        assert sorted[i] == sorted[j];
        assert sorted == sorted[..j] + [sorted[j]] + sorted[j + 1..] && sorted[i] in sorted[..j];
        CountOfDistinct(ops, sorted[j]);
      }
    }
  }

  lemma RegistryValid(metas: seq<AssetMeta>, ops: seq<OpMeta>, order: seq<nat>, reg0: Registry, keys: map<Name, nat>,
                      reg: Registry)
    requires Arranged(metas, ops, order, reg.metas)
    requires reg0 == Registry(reg.metas, reg.byName, [], map[]) && reg0.NamesIndexed() && reg.OpsIndexed()
    requires forall o :: o in ops <==> o in reg.ops
    requires SortedBy(keys, reg.ops)
    requires forall k :: 0 <= k < |ops| ==> ops[k].name in keys && keys[ops[k].name] == reg0.Least(ops[k].produces)
    requires forall o :: o in ops && o.name in reg.byName ==> o.name in o.produces
    ensures reg.Valid()
  {
    forall i | 0 <= i < |reg.metas| ensures reg.ValidMeta(i) {
      ArrangedMeta(metas, ops, order, reg.metas, reg, i);
    }
    forall i | 0 <= i < |reg.ops| ensures reg.ValidOp(reg.ops[i]) {
      assert reg.ops[i] in reg.ops;
      ArrangedOp(metas, ops, order, reg.metas, reg, reg.ops[i]);
    }
    forall i, j | 0 <= i < j < |reg.ops| ensures reg.Least(reg.ops[i].produces) <= reg.Least(reg.ops[j].produces) {
      assert reg.ops[i] in ops && reg.ops[j] in ops;
      LeastAgrees(reg0, reg, reg.ops[i].produces);
      LeastAgrees(reg0, reg, reg.ops[j].produces);
    }
  }

  lemma {:induction false} LeastAgrees(a: Registry, b: Registry, produces: seq<Name>)
    requires a.byName == b.byName
    ensures a.Least(produces) == b.Least(produces)
  {
    if |produces| > 1 {
      LeastAgrees(a, b, produces[1..]);
    }
  }
}
