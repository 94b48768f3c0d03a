/**
 * The op graph of src/graph.rs: Kahn's ordering with ties broken by declaration
 * order, the walk that names an op on a cycle, and the downstream closure.
 */
module Graph {
  import opened Prelude

  datatype Op = Op(name: string, deps: seq<string>)

  datatype GraphError =
    | DuplicateOp(op: string)
    | UnknownDep(op: string, dep: string)
    | Cycle(op: string)

  // ----------------------------------------------------------- what is promised

  ghost predicate UniqueNames(ops: seq<Op>) {
    forall i, j :: 0 <= i < j < |ops| ==> ops[i].name != ops[j].name
  }

  ghost predicate Declared(ops: seq<Op>, name: string) {
    exists i :: 0 <= i < |ops| && ops[i].name == name
  }

  ghost predicate DepsKnown(ops: seq<Op>) {
    forall i, dep :: 0 <= i < |ops| && dep in ops[i].deps ==> Declared(ops, dep)
  }

  /** Op `i` depends on op `j`. */
  ghost predicate DependsOn(ops: seq<Op>, i: nat, j: nat) {
    i < |ops| && j < |ops| && ops[j].name in ops[i].deps
  }

  /** `p` follows dependencies, each op in it depending on the next. */
  ghost predicate Walk(ops: seq<Op>, p: seq<nat>) {
    forall k :: 0 <= k < |p| - 1 ==> DependsOn(ops, p[k], p[k + 1])
  }

  ghost predicate CycleThrough(ops: seq<Op>, i: nat, p: seq<nat>) {
    |p| >= 2 && p[0] == i && p[|p| - 1] == i && Walk(ops, p)
  }

  ghost predicate OnCycle(ops: seq<Op>, i: nat) {
    exists p :: CycleThrough(ops, i, p)
  }

  ghost predicate Acyclic(ops: seq<Op>) {
    forall i: nat :: !OnCycle(ops, i)
  }

  ghost predicate Topological(ops: seq<Op>, order: seq<nat>) {
    && NoRepeats(order)
    && (forall i :: i in order <==> 0 <= i < |ops|)
    && forall k, j :: 0 <= k < |order| && DependsOn(ops, order[k], j) ==> j in order[..k]
  }

  ghost predicate LexLe(a: seq<nat>, b: seq<nat>) {
    a <= b || exists k :: 0 <= k < |a| && k < |b| && a[..k] == b[..k] && a[k] < b[k]
  }

  ghost predicate LeastTopological(ops: seq<Op>, order: seq<nat>) {
    && Topological(ops, order)
    && forall other :: Topological(ops, other) ==> LexLe(order, other)
  }

  ghost function Names(ops: seq<Op>, order: seq<nat>): seq<string>
    requires forall i :: i in order ==> i < |ops|
  {
    seq(|order|, k requires 0 <= k < |order| => assert order[k] in order; ops[order[k]].name)
  }

  // ----------------------------------------------------------- orders and cycles

  /** Every op already placed has its deps placed before it, and was the least op that could follow. */
  ghost predicate Greedy(ops: seq<Op>, order: seq<nat>) {
    && NoRepeats(order)
    && (forall i :: i in order ==> i < |ops|)
    && forall k :: 0 <= k < |order| ==> LeastReady(ops, order[..k], order[k])
  }

  ghost predicate ReadyAfter(ops: seq<Op>, placed: seq<nat>, i: nat) {
    && i < |ops| && i !in placed
    && forall j :: DependsOn(ops, i, j) ==> j in placed
  }

  ghost predicate LeastReady(ops: seq<Op>, placed: seq<nat>, i: nat) {
    ReadyAfter(ops, placed, i) && forall j :: ReadyAfter(ops, placed, j) ==> i <= j
  }

  lemma {:induction false} FirstDifference(a: seq<nat>, b: seq<nat>) returns (k: nat)
    requires !(a <= b) && |a| == |b|
    ensures k < |a| && a[..k] == b[..k] && a[k] != b[k]
  {
    k := 0;
    while k < |a| && a[k] == b[k]
      invariant k <= |a| && a[..k] == b[..k]
    {
      k := k + 1;
    }
  }

  ghost function Indices(n: nat): (all: set<nat>)
    ensures |all| == n
    ensures forall i: nat :: i in all <==> i < n
  {
    if n == 0 then {} else Indices(n - 1) + {n - 1}
  }

  lemma {:induction false} SetOfSeq<T>(s: seq<T>)
    ensures |set x | x in s| <= |s|
  {
    if s != [] {
      SetOfSeq(s[1..]);
      assert (set x | x in s) == (set x | x in s[1..]) + {s[0]};
    }
  }

  lemma SameLength(ops: seq<Op>, order: seq<nat>)
    requires Topological(ops, order)
    ensures |order| == |ops|
  {
    NoRepeatsBound(order, Indices(|ops|));
    SetOfSeq(order);
    SubsetSize(Indices(|ops|), set i | i in order);
  }

  /** The greedy order is the lexicographically least of all topological orders. */
  lemma {:induction false} GreedyIsLeast(ops: seq<Op>, order: seq<nat>)
    requires Greedy(ops, order) && |order| == |ops|
    ensures LeastTopological(ops, order)
  {
    GreedyIsTopological(ops, order);
    forall other | Topological(ops, other) ensures LexLe(order, other) {
      SameLength(ops, other);
      if !(order <= other) {
        var k := FirstDifference(order, other);
        assert other[k] in other && other[k] !in other[..k];
        assert ReadyAfter(ops, other[..k], other[k]);
        assert LeastReady(ops, order[..k], order[k]);
      }
    }
  }

  lemma GreedyIsTopological(ops: seq<Op>, order: seq<nat>)
    requires Greedy(ops, order) && |order| == |ops|
    ensures Topological(ops, order)
  {
    forall i: nat | i < |ops| ensures i in order {
      if i !in order {
        NoRepeatsBound(order, Indices(|ops|) - {i});
      }
    }
    forall k, j | 0 <= k < |order| && DependsOn(ops, order[k], j) ensures j in order[..k] {
      assert LeastReady(ops, order[..k], order[k]);
    }
  }

  ghost function Position(order: seq<nat>, i: nat): (k: nat)
    requires i in order
    ensures k < |order| && order[k] == i
  {
    var k :| 0 <= k < |order| && order[k] == i; k
  }

  lemma {:induction false} WalkDescends(ops: seq<Op>, order: seq<nat>, p: seq<nat>)
    requires Topological(ops, order) && Walk(ops, p) && |p| >= 2
    ensures p[0] in order && p[|p| - 1] in order
    ensures Position(order, p[|p| - 1]) < Position(order, p[0])
  {
    assert DependsOn(ops, p[0], p[1]);
    assert p[1] in order[..Position(order, p[0])];
    if |p| > 2 {
      forall k | 0 <= k < |p[1..]| - 1 ensures DependsOn(ops, p[1..][k], p[1..][k + 1]) {
        assert DependsOn(ops, p[k + 1], p[k + 2]);
      }
      WalkDescends(ops, order, p[1..]);
    }
  }

  /** An order exists only for a graph with no cycle. */
  lemma TopologicalImpliesAcyclic(ops: seq<Op>, order: seq<nat>)
    requires Topological(ops, order)
    ensures Acyclic(ops)
  {
    forall i: nat ensures !OnCycle(ops, i) {
      forall p | CycleThrough(ops, i, p) ensures false {
        WalkDescends(ops, order, p);
      }
    }
  }

  // ----------------------------------------------------------- indegree accounting

  /** How many of these dependency entries are not yet placed, counted with repeats. */
  ghost function Open(links: seq<nat>, placed: seq<nat>): nat {
    if links == [] then 0
    else (if links[0] in placed then 0 else 1) + Open(links[1..], placed)
  }

  lemma {:induction false} OpenAfterPlacing(links: seq<nat>, placed: seq<nat>, i: nat)
    requires i !in placed
    ensures Open(links, placed + [i]) + multiset(links)[i] == Open(links, placed)
  {
    if links != [] {
      OpenAfterPlacing(links[1..], placed, i);
      assert links == [links[0]] + links[1..];
    }
  }

  lemma {:induction false} OpenZero(links: seq<nat>, placed: seq<nat>)
    ensures Open(links, placed) == 0 <==> forall j :: j in links ==> j in placed
  {
    if links != [] {
      OpenZero(links[1..], placed);
      assert links == [links[0]] + links[1..];
    }
  }

  lemma {:induction false} OpenOfNothing(links: seq<nat>)
    ensures Open(links, []) == |links|
  {
    if links != [] {
      OpenOfNothing(links[1..]);
    }
  }

  lemma PrefixMultiplicity<T>(s: seq<T>, t: nat, x: T)
    requires t <= |s|
    ensures multiset(s[..t])[x] <= multiset(s)[x]
    ensures t < |s| ==> multiset(s[..t + 1])[x] == multiset(s[..t])[x] + if s[t] == x then 1 else 0
  {
    assert s == s[..t] + s[t..];
    if t < |s| {
      assert s[..t + 1] == s[..t] + [s[t]];
    }
  }

  /** The dependency entries of every op, as positions in the declaration order. */
  ghost predicate Linked(ops: seq<Op>, links: seq<seq<nat>>) {
    && |links| == |ops|
    && forall i :: 0 <= i < |ops| ==> LinkedOp(ops, i, links[i])
  }

  ghost predicate LinkedOp(ops: seq<Op>, i: nat, link: seq<nat>)
    requires i < |ops|
  {
    && |link| == |ops[i].deps|
    && forall k :: 0 <= k < |link| ==> link[k] < |ops| && ops[link[k]].name == ops[i].deps[k]
  }

  ghost predicate Mirrored(links: seq<seq<nat>>, dependents: seq<seq<nat>>) {
    && (forall j, d :: 0 <= j < |dependents| && d in dependents[j] ==> d < |links|)
    && forall i, j :: 0 <= i < |links| && 0 <= j < |dependents| ==>
         multiset(dependents[j])[i] == multiset(links[i])[j]
  }

  lemma MirrorOneMore(links: seq<seq<nat>>, link: seq<nat>, dependents: seq<seq<nat>>, j: nat)
    requires Mirrored(links + [link], dependents) && j < |dependents|
    ensures Mirrored(links + [link + [j]], dependents[j := dependents[j] + [|links|]])
  {
    var after := dependents[j := dependents[j] + [|links|]];
    forall k, at | 0 <= k <= |links| && 0 <= at < |after|
      ensures multiset(after[at])[k] == multiset((links + [link + [j]])[k])[at]
    {
      assert multiset(dependents[at])[k] == multiset((links + [link])[k])[at];
    }
  }

  lemma MirrorNext(links: seq<seq<nat>>, dependents: seq<seq<nat>>)
    requires Mirrored(links, dependents)
    ensures Mirrored(links + [[]], dependents)
  {
    forall k, at | 0 <= k <= |links| && 0 <= at < |dependents|
      ensures multiset(dependents[at])[k] == multiset((links + [[]])[k])[at]
    {
      if k == |links| {
        assert k !in dependents[at];
      }
    }
  }

  lemma DependsOnIsLink(ops: seq<Op>, links: seq<seq<nat>>, i: nat, j: nat)
    requires UniqueNames(ops) && Linked(ops, links) && i < |ops|
    ensures DependsOn(ops, i, j) <==> j in links[i]
  {
    assert LinkedOp(ops, i, links[i]);
    if DependsOn(ops, i, j) {
      var k :| 0 <= k < |ops[i].deps| && ops[i].deps[k] == ops[j].name;
      assert links[i][k] == j;
    }
  }

  lemma ReadyIsOpenZero(ops: seq<Op>, links: seq<seq<nat>>, placed: seq<nat>, i: nat)
    requires UniqueNames(ops) && Linked(ops, links) && i < |ops| && i !in placed
    ensures ReadyAfter(ops, placed, i) <==> Open(links[i], placed) == 0
  {
    OpenZero(links[i], placed);
    forall j: nat ensures DependsOn(ops, i, j) <==> j in links[i] {
      DependsOnIsLink(ops, links, i, j);
    }
  }

  // ----------------------------------------------------------- the algorithm

  ghost predicate Indexed(ops: seq<Op>, index: map<string, nat>) {
    && UniqueNames(ops)
    && (forall name :: name in index <==> Declared(ops, name))
    && (forall i :: 0 <= i < |ops| ==> ops[i].name in index && index[ops[i].name] == i)
    && forall name :: name in index ==> index[name] < |ops| && ops[index[name]].name == name
  }

  method IndexNames(ops: seq<Op>) returns (r: Result<map<string, nat>, GraphError>)
    ensures r.Ok? <==> UniqueNames(ops)
    ensures r.Ok? ==> Indexed(ops, r.value)
    ensures r.Err? ==> exists i, j :: 0 <= i < j < |ops| && ops[i].name == ops[j].name
                                      && r.error == DuplicateOp(ops[j].name) && UniqueNames(ops[..j])
  {
    var index: map<string, nat> := map[];
    for i := 0 to |ops|
      invariant index.Keys == set k | 0 <= k < i :: ops[k].name
      invariant forall k :: 0 <= k < i ==> index[ops[k].name] == k
      invariant UniqueNames(ops[..i])
    {
      var name := ops[i].name;
      if name in index {
        return Err(DuplicateOp(name));
      }
      index := index[name := i];
    }
    assert ops[..|ops|] == ops;
    return Ok(index);
  }

  method CountDependencies(ops: seq<Op>, index: map<string, nat>, indegree: array<nat>, dependents: array<seq<nat>>)
    returns (r: Result<(), GraphError>, ghost links: seq<seq<nat>>)
    requires Indexed(ops, index)
    requires indegree.Length == |ops| && dependents.Length == |ops|
    requires forall i :: 0 <= i < |ops| ==> indegree[i] == 0 && dependents[i] == []
    modifies indegree, dependents
    ensures r.Ok? <==> DepsKnown(ops)
    ensures r.Ok? ==> Linked(ops, links) && Mirrored(links, dependents[..])
    ensures r.Ok? ==> forall i :: 0 <= i < |ops| ==> indegree[i] == |links[i]|
    ensures r.Err? ==> exists i, dep :: 0 <= i < |ops| && dep in ops[i].deps && !Declared(ops, dep)
                                        && r.error == UnknownDep(ops[i].name, dep)
  {
    links := [];
    for i := 0 to |ops|
      invariant |links| == i && Mirrored(links, dependents[..])
      invariant forall k :: 0 <= k < i ==> LinkedOp(ops, k, links[k]) && indegree[k] == |links[k]|
      invariant forall k :: i <= k < |ops| ==> indegree[k] == 0
    {
      ghost var link: seq<nat> := [];
      var deps := ops[i].deps;
      MirrorNext(links, dependents[..]);
      for t := 0 to |deps|
        invariant |link| == t && indegree[i] == t
        invariant forall k :: 0 <= k < t ==> link[k] < |ops| && ops[link[k]].name == deps[k]
        invariant forall k :: 0 <= k < i ==> indegree[k] == |links[k]|
        invariant forall k :: i < k < |ops| ==> indegree[k] == 0
        invariant Mirrored(links + [link], dependents[..])
      {
        if deps[t] !in index {
          assert deps[t] in ops[i].deps && !Declared(ops, deps[t]);
          return Err(UnknownDep(ops[i].name, deps[t])), links;
        }
        var j := index[deps[t]];
        MirrorOneMore(links, link, dependents[..], j);
        ghost var before := dependents[..];
        indegree[i] := indegree[i] + 1;
        dependents[j] := dependents[j] + [i];
        assert dependents[..] == before[j := before[j] + [|links|]];
        link := link + [j];
      }
      links := links + [link];
    }
    LinkedKnown(ops, links);
    return Ok(()), links;
  }

  lemma LinkedKnown(ops: seq<Op>, links: seq<seq<nat>>)
    requires Linked(ops, links)
    ensures DepsKnown(ops)
  {
    forall i, dep | 0 <= i < |ops| && dep in ops[i].deps ensures Declared(ops, dep) {
      assert LinkedOp(ops, i, links[i]);
    }
  }

  method PopLeast(ready: set<nat>) returns (least: nat, rest: set<nat>)
    requires ready != {}
    ensures least in ready && rest == ready - {least}
    ensures forall i :: i in ready ==> least <= i
  {
    least :| least in ready;
    var unseen := ready - {least};
    while unseen != {}
      invariant least in ready && unseen <= ready
      invariant forall i :: i in ready && i !in unseen ==> least <= i
    {
      var i :| i in unseen;
      if i < least { least := i; }
      unseen := unseen - {i};
    }
    rest := ready - {least};
  }

  ghost predicate Counted(links: seq<seq<nat>>, placed: seq<nat>, indegree: seq<nat>) {
    |indegree| == |links| && forall d :: 0 <= d < |links| ==> indegree[d] == Open(links[d], placed)
  }

  ghost predicate ReadySet(placed: seq<nat>, indegree: seq<nat>, ready: set<nat>) {
    && (forall d :: d in ready <==> 0 <= d < |indegree| && d !in placed && indegree[d] == 0)
    && forall d :: d in placed ==> d < |indegree| && indegree[d] == 0
  }

  /** The counts while the entries in `freed` have been taken off what was open before. */
  ghost predicate Releasing(links: seq<seq<nat>>, before: seq<nat>, freed: seq<nat>, indegree: seq<nat>) {
    && |indegree| == |links|
    && forall d :: 0 <= d < |links| ==> indegree[d] + multiset(freed)[d] == Open(links[d], before)
  }

  ghost predicate WaitsOn(links: seq<seq<nat>>, i: nat, waiting: seq<nat>) {
    && (forall d :: d in waiting ==> d < |links|)
    && forall d :: 0 <= d < |links| ==> multiset(waiting)[d] == multiset(links[d])[i]
  }

  lemma ReleaseOne(links: seq<seq<nat>>, before: seq<nat>, i: nat, waiting: seq<nat>, t: nat, indegree: seq<nat>)
    requires i !in before && WaitsOn(links, i, waiting) && t < |waiting|
    requires Releasing(links, before, waiting[..t], indegree)
    ensures waiting[t] < |links| && indegree[waiting[t]] > 0
    ensures Releasing(links, before, waiting[..t + 1], indegree[waiting[t] := indegree[waiting[t]] - 1])
  {
    var d := waiting[t];
    assert d in waiting;
    OpenAfterPlacing(links[d], before, i);
    PrefixMultiplicity(waiting, t, d);
    PrefixMultiplicity(waiting, t + 1, d);
    var after := indegree[d := indegree[d] - 1];
    forall x | 0 <= x < |links|
      ensures after[x] + multiset(waiting[..t + 1])[x] == Open(links[x], before)
    {
      PrefixMultiplicity(waiting, t, x);
    }
  }

  lemma ReleasedAll(links: seq<seq<nat>>, before: seq<nat>, i: nat, waiting: seq<nat>, indegree: seq<nat>)
    requires i !in before && WaitsOn(links, i, waiting)
    requires Releasing(links, before, waiting, indegree)
    ensures Counted(links, before + [i], indegree)
  {
    forall d | 0 <= d < |links| ensures indegree[d] == Open(links[d], before + [i]) {
      OpenAfterPlacing(links[d], before, i);
    }
  }

  /** Let go of everything waiting on `i`, readying what now waits on nothing. */
  method Release(i: nat, waiting: seq<nat>, indegree: array<nat>, ready0: set<nat>,
                 ghost links: seq<seq<nat>>, ghost before: seq<nat>)
    returns (ready: set<nat>)
    requires i !in before && WaitsOn(links, i, waiting)
    requires Counted(links, before, indegree[..])
    requires ReadySet(before + [i], indegree[..], ready0)
    modifies indegree
    ensures Counted(links, before + [i], indegree[..])
    ensures ReadySet(before + [i], indegree[..], ready)
  {
    ready := ready0;
    for t := 0 to |waiting|
      invariant Releasing(links, before, waiting[..t], indegree[..])
      invariant ReadySet(before + [i], indegree[..], ready)
    {
      var d := waiting[t];
      ghost var counts := indegree[..];
      ReleaseOne(links, before, i, waiting, t, counts);
      indegree[d] := indegree[d] - 1;
      assert indegree[..] == counts[d := counts[d] - 1];
      if indegree[d] == 0 {
        ready := ready + {d};
      }
    }
    assert waiting[..|waiting|] == waiting;
    ReleasedAll(links, before, i, waiting, indegree[..]);
  }

  method Drain(ops: seq<Op>, indegree: array<nat>, dependents: seq<seq<nat>>, ghost links: seq<seq<nat>>)
    returns (order: seq<nat>)
    requires UniqueNames(ops) && Linked(ops, links) && Mirrored(links, dependents) && |dependents| == |ops|
    requires indegree.Length == |ops|
    requires forall i :: 0 <= i < |ops| ==> indegree[i] == |links[i]|
    modifies indegree
    ensures Greedy(ops, order)
    ensures Counted(links, order, indegree[..]) && ReadySet(order, indegree[..], {})
  {
    var ready: set<nat> := set i: nat | i < |ops| && indegree[i] == 0;
    order := [];
    forall i | 0 <= i < |ops| ensures indegree[i] == Open(links[i], order) {
      OpenOfNothing(links[i]);
    }
    while ready != {}
      invariant Greedy(ops, order)
      invariant Counted(links, order, indegree[..])
      invariant ReadySet(order, indegree[..], ready)
      decreases |ops| - |order|
    {
      var i, rest := PopLeast(ready);
      PlaceLeast(ops, links, order, indegree[..], i);
      ready := Release(i, dependents[i], indegree, rest, links, order);
      order := order + [i];
    }
  }

  lemma GreedyFits(ops: seq<Op>, order: seq<nat>)
    requires Greedy(ops, order)
    ensures |order| <= |ops|
  {
    NoRepeatsBound(order, Indices(|ops|));
  }

  /** Popping the least ready op extends a greedy order to a greedy order. */
  lemma PlaceLeast(ops: seq<Op>, links: seq<seq<nat>>, order: seq<nat>, indegree: seq<nat>, i: nat)
    requires UniqueNames(ops) && Linked(ops, links) && Greedy(ops, order)
    requires Counted(links, order, indegree) && i < |ops| && i !in order && indegree[i] == 0
    requires forall d :: 0 <= d < |ops| && d !in order && indegree[d] == 0 ==> i <= d
    ensures Greedy(ops, order + [i])
    ensures |order| < |ops|
  {
    var next := order + [i];
    forall d: nat | d < |ops| && d !in order ensures ReadyAfter(ops, order, d) <==> indegree[d] == 0 {
      ReadyIsOpenZero(ops, links, order, d);
    }
    forall k | 0 <= k < |next| ensures LeastReady(ops, next[..k], next[k]) {
      assert next[..k] == order[..k];
      if k == |order| {
        assert order[..k] == order;
      }
    }
    GreedyFits(ops, next);
  }

  lemma WalkOn(ops: seq<Op>, p: seq<nat>, at: nat, next: nat)
    requires Walk(ops, p + [at]) && DependsOn(ops, at, next)
    ensures Walk(ops, p + [at] + [next])
  {
    var q := p + [at];
    forall k | 0 <= k < |q + [next]| - 1 ensures DependsOn(ops, (q + [next])[k], (q + [next])[k + 1]) {
      if k < |p| {
        assert DependsOn(ops, q[k], q[k + 1]);
      }
    }
  }

  /** A walk that comes back to a name it has passed closes a cycle. */
  lemma WalkCloses(ops: seq<Op>, p: seq<nat>, i: nat)
    requires Walk(ops, p + [i]) && i in p
    ensures OnCycle(ops, i)
  {
    var start :| 0 <= start < |p| && p[start] == i;
    var whole := p + [i];
    var c := whole[start..];
    forall k | 0 <= k < |c| - 1 ensures DependsOn(ops, c[k], c[k + 1]) {
      assert DependsOn(ops, whole[start + k], whole[start + k + 1]);
    }
    assert CycleThrough(ops, i, c);
  }

  /** The first dep of an unfinished op that is itself unfinished; there always is one. */
  method UnfinishedDep(ops: seq<Op>, index: map<string, nat>, indegree: array<nat>, i: nat,
                       ghost links: seq<seq<nat>>, ghost order: seq<nat>)
    returns (next: nat)
    requires Indexed(ops, index) && Linked(ops, links) && i < |ops|
    requires Counted(links, order, indegree[..]) && ReadySet(order, indegree[..], {})
    requires indegree[i] > 0
    ensures DependsOn(ops, i, next) && indegree[next] > 0
  {
    ghost var at := OpenLink(links[i], order, indegree[..]);
    DepsResolve(ops, index, links, i);
    next := FirstPositive(ops[i].deps, index, indegree, at);
    assert ops[next].name in ops[i].deps;
  }

  method FirstPositive(deps: seq<string>, index: map<string, nat>, indegree: array<nat>, ghost at: nat)
    returns (next: nat)
    requires forall k :: 0 <= k < |deps| ==> deps[k] in index && index[deps[k]] < indegree.Length
    requires at < |deps| && indegree[index[deps[at]]] > 0
    ensures exists k :: 0 <= k < |deps| && next == index[deps[k]]
    ensures next < indegree.Length && indegree[next] > 0
  {
    var k: nat := 0;
    while indegree[index[deps[k]]] == 0
      invariant k <= at
      decreases at - k
    {
      k := k + 1;
    }
    next := index[deps[k]];
  }

  lemma DepsResolve(ops: seq<Op>, index: map<string, nat>, links: seq<seq<nat>>, i: nat)
    requires Indexed(ops, index) && Linked(ops, links) && i < |ops|
    ensures |links[i]| == |ops[i].deps|
    ensures forall k :: 0 <= k < |ops[i].deps| ==>
              ops[i].deps[k] in index && index[ops[i].deps[k]] == links[i][k] < |ops|
    ensures forall k :: 0 <= k < |ops[i].deps| ==> ops[index[ops[i].deps[k]]].name == ops[i].deps[k]
  {
    assert LinkedOp(ops, i, links[i]);
  }

  lemma OpenLink(link: seq<nat>, order: seq<nat>, indegree: seq<nat>) returns (at: nat)
    requires Open(link, order) > 0
    requires forall k :: 0 <= k < |link| ==> link[k] < |indegree|
    requires ReadySet(order, indegree, {})
    ensures at < |link| && indegree[link[at]] > 0
  {
    OpenZero(link, order);
    var up :| up in link && up !in order;
    at :| 0 <= at < |link| && link[at] == up;
  }

  /** Following unfinished deps from an unfinished op comes back to an op on a cycle. */
  method NameCycle(ops: seq<Op>, index: map<string, nat>, indegree: array<nat>, ghost links: seq<seq<nat>>,
                   ghost order: seq<nat>)
    returns (found: nat)
    requires Indexed(ops, index) && Linked(ops, links) && |order| < |ops|
    requires Counted(links, order, indegree[..]) && ReadySet(order, indegree[..], {})
    ensures found < |ops| && OnCycle(ops, found)
  {
    ghost var unplaced := SomeUnplaced(ops, order);
    assert indegree[..][unplaced] != 0;
    var i: nat := 0;
    while indegree[i] == 0
      invariant i <= unplaced
      decreases unplaced - i
    {
      i := i + 1;
    }
    var seen: set<nat> := {};
    ghost var path: seq<nat> := [];
    while i !in seen
      invariant i < |ops| && indegree[i] > 0
      invariant forall k :: k in path <==> k in seen
      invariant seen <= Indices(|ops|)
      invariant Walk(ops, path + [i])
      decreases Indices(|ops|) - seen
    {
      seen := seen + {i};
      var next := UnfinishedDep(ops, index, indegree, i, links, order);
      WalkOn(ops, path, i, next);
      path := path + [i];
      i := next;
    }
    WalkCloses(ops, path, i);
    found := i;
  }

  lemma SomeUnplaced(ops: seq<Op>, order: seq<nat>) returns (i: nat)
    requires |order| < |ops|
    ensures i < |ops| && i !in order
  {
    if forall i: nat :: i < |ops| ==> i in order {
      SetOfSeq(order);
      SubsetSize(Indices(|ops|), set i | i in order);
    }
    i :| i < |ops| && i !in order;
  }

  /**
   * An order exactly when names are unique, deps are known and nothing is on a
   * cycle; then it is the lexicographically least one by declaration index. On
   * a cycle the op named is really on one.
   */
  method TopoOrder(ops: seq<Op>) returns (r: Result<seq<string>, GraphError>)
    ensures r.Ok? <==> UniqueNames(ops) && DepsKnown(ops) && Acyclic(ops)
    ensures r.Ok? ==> exists order :: LeastTopological(ops, order) && r.value == Names(ops, order)
    ensures r.Err? && r.error.DuplicateOp? <==> !UniqueNames(ops)
    ensures r.Err? && r.error.UnknownDep? <==> UniqueNames(ops) && !DepsKnown(ops)
    ensures r.Err? && r.error.DuplicateOp? ==>
              exists i, j :: 0 <= i < j < |ops| && ops[i].name == ops[j].name == r.error.op
    ensures r.Err? && r.error.UnknownDep? ==> !Declared(ops, r.error.dep)
    ensures r.Err? && r.error.Cycle? ==>
              exists i :: 0 <= i < |ops| && ops[i].name == r.error.op && OnCycle(ops, i)
  {
    var indexed := IndexNames(ops);
    if indexed.Err? {
      return Err(indexed.error);
    }
    var index := indexed.value;
    var indegree := new nat[|ops|](_ => 0);
    var dependents := new seq<nat>[|ops|](_ => []);
    ghost var links;
    var counted;
    counted, links := CountDependencies(ops, index, indegree, dependents);
    if counted.Err? {
      return Err(counted.error);
    }
    var order := Drain(ops, indegree, dependents[..], links);
    GreedyFits(ops, order);
    if |order| < |ops| {
      var found := NameCycle(ops, index, indegree, links, order);
      return Err(Cycle(ops[found].name));
    }
    GreedyIsLeast(ops, order);
    TopologicalImpliesAcyclic(ops, order);
    var names := seq(|order|, k requires 0 <= k < |order| => assert order[k] in order; ops[order[k]].name);
    assert names == Names(ops, order);
    return Ok(names);
  }

  // ----------------------------------------------------------- downstream

  ghost predicate ReadsName(ops: seq<Op>, reader: string, dep: string) {
    exists i :: 0 <= i < |ops| && ops[i].name == reader && dep in ops[i].deps
  }

  /** A nonempty dependent path from `root`, every name after the root accepted. */
  ghost predicate DependentPath(ops: seq<Op>, root: string, through: string -> bool, p: seq<string>) {
    && |p| >= 2 && p[0] == root
    && (forall k :: 0 <= k < |p| - 1 ==> ReadsName(ops, p[k + 1], p[k]))
    && forall k :: 1 <= k < |p| ==> through(p[k])
  }

  ghost predicate ReachedThrough(ops: seq<Op>, root: string, through: string -> bool, name: string) {
    exists p :: DependentPath(ops, root, through, p) && p[|p| - 1] == name
  }

  lemma StepReached(ops: seq<Op>, root: string, through: string -> bool, at: string, next: string)
    requires at == root || ReachedThrough(ops, root, through, at)
    requires ReadsName(ops, next, at) && through(next)
    ensures ReachedThrough(ops, root, through, next)
  {
    var p := if at == root then [root] else
      var q :| DependentPath(ops, root, through, q) && q[|q| - 1] == at; q;
    var longer := p + [next];
    forall k | 0 <= k < |longer| - 1 ensures ReadsName(ops, longer[k + 1], longer[k]) {
      if k < |p| - 1 {
        assert ReadsName(ops, p[k + 1], p[k]);
      }
    }
    assert DependentPath(ops, root, through, longer);
  }

  lemma {:induction false} ClosedHoldsPath(ops: seq<Op>, root: string, through: string -> bool, out: set<string>,
                                           p: seq<string>)
    requires DependentPath(ops, root, through, p)
    requires Walked(ops, root, through, out, [])
    ensures p[|p| - 1] in out
  {
    assert ReadsName(ops, p[|p| - 1], p[|p| - 2]);
    if |p| > 2 {
      var shorter := p[..|p| - 1];
      forall k | 0 <= k < |shorter| - 1 ensures ReadsName(ops, shorter[k + 1], shorter[k]) {
        assert ReadsName(ops, p[k + 1], p[k]);
      }
      ClosedHoldsPath(ops, root, through, out, shorter);
    }
  }

  ghost predicate DependentsOf(ops: seq<Op>, dependents: map<string, seq<string>>) {
    && (forall dep, name :: dep in dependents && name in dependents[dep] ==> ReadsName(ops, name, dep))
    && forall dep, name :: ReadsName(ops, name, dep) ==> dep in dependents && name in dependents[dep]
  }

  method DependentNames(ops: seq<Op>) returns (dependents: map<string, seq<string>>)
    ensures DependentsOf(ops, dependents)
  {
    dependents := map[];
    for i := 0 to |ops|
      invariant forall dep, name :: dep in dependents && name in dependents[dep] ==> ReadsName(ops, name, dep)
      invariant forall k, dep :: 0 <= k < i && dep in ops[k].deps ==>
                  dep in dependents && ops[k].name in dependents[dep]
    {
      for t := 0 to |ops[i].deps|
        invariant forall dep, name :: dep in dependents && name in dependents[dep] ==> ReadsName(ops, name, dep)
        invariant forall k, dep :: 0 <= k < i && dep in ops[k].deps ==>
                    dep in dependents && ops[k].name in dependents[dep]
        invariant forall k :: 0 <= k < t ==>
                    ops[i].deps[k] in dependents && ops[i].name in dependents[ops[i].deps[k]]
      {
        var d := ops[i].deps[t];
        var held := if d in dependents then dependents[d] else [];
        dependents := dependents[d := held + [ops[i].name]];
      }
    }
  }

  /** Everything reached is walked on from, except what is still on the stack. */
  ghost predicate Walked(ops: seq<Op>, root: string, through: string -> bool, out: set<string>, stack: seq<string>) {
    forall at, next :: (at == root || at in out) && at !in stack && ReadsName(ops, next, at) && through(next) ==>
      next in out
  }

  ghost predicate Sound(ops: seq<Op>, root: string, through: string -> bool, out: set<string>, stack: seq<string>) {
    && (forall n :: n in stack ==> n == root || n in out)
    && forall n :: n in out ==> ReachedThrough(ops, root, through, n)
  }

  /** Take in the accepted dependents of one name that were not already reached. */
  method Visit(ops: seq<Op>, root: string, through: string -> bool, n: string, kids: seq<string>,
               out0: set<string>, stack0: seq<string>)
    returns (out: set<string>, stack: seq<string>)
    requires Sound(ops, root, through, out0, stack0 + [n])
    requires forall k :: k in kids ==> ReadsName(ops, k, n)
    ensures Sound(ops, root, through, out, stack)
    ensures out0 <= out && out - out0 <= set k | k in kids
    ensures forall k :: k in kids && through(k) ==> k in out
    ensures forall x :: x in stack <==> x in stack0 || x in out - out0
    ensures out == out0 ==> stack == stack0
  {
    out, stack := out0, stack0;
    for t := 0 to |kids|
      invariant Sound(ops, root, through, out, stack)
      invariant out0 <= out && out - out0 <= set k | k in kids
      invariant forall k :: 0 <= k < t && through(kids[k]) ==> kids[k] in out
      invariant forall x :: x in stack <==> x in stack0 || x in out - out0
      invariant out == out0 ==> stack == stack0
    {
      var k := kids[t];
      assert k in kids;
      if through(k) && k !in out {
        assert n in stack0 + [n];
        StepReached(ops, root, through, n, k);
        out := out + {k};
        stack := stack + [k];
      }
    }
  }

  lemma WalkedOn(ops: seq<Op>, root: string, through: string -> bool, n: string, out0: set<string>, rest: seq<string>,
                 out: set<string>, stack: seq<string>)
    requires Walked(ops, root, through, out0, rest + [n])
    requires out0 <= out && (forall x :: x in stack <==> x in rest || x in out - out0)
    requires forall next :: ReadsName(ops, next, n) && through(next) ==> next in out
    ensures Walked(ops, root, through, out, stack)
  {
    forall at, next | (at == root || at in out) && at !in stack && ReadsName(ops, next, at) && through(next)
      ensures next in out
    {
      if at != n {
        assert at !in rest + [n] && (at == root || at in out0);
      }
    }
  }

  lemma Shrinks<T>(all: set<T>, out0: set<T>, out: set<T>)
    requires out0 <= out <= all && out0 != out
    ensures |all - out| < |all - out0|
  {
    assert !(out <= out0);
    var x :| x in out && x !in out0;
    SubsetSize(all - out, all - out0 - {x});
  }

  ghost function AllNames(ops: seq<Op>): set<string> {
    set i | 0 <= i < |ops| :: ops[i].name
  }

  method PopAndVisit(ops: seq<Op>, dependents: map<string, seq<string>>, root: string, through: string -> bool,
                     out0: set<string>, stack0: seq<string>)
    returns (out: set<string>, stack: seq<string>)
    requires DependentsOf(ops, dependents) && stack0 != []
    requires Sound(ops, root, through, out0, stack0) && Walked(ops, root, through, out0, stack0)
    requires out0 <= AllNames(ops)
    ensures Sound(ops, root, through, out, stack) && Walked(ops, root, through, out, stack)
    ensures out0 <= out <= AllNames(ops)
    ensures out == out0 ==> |stack| < |stack0|
  {
    var n, rest := stack0[|stack0| - 1], stack0[..|stack0| - 1];
    assert stack0 == rest + [n];
    var kids := if n in dependents then dependents[n] else [];
    out, stack := Visit(ops, root, through, n, kids, out0, rest);
    forall x | x in out ensures x in AllNames(ops) {
      if x !in out0 {
        assert x in out - out0 && x in kids && ReadsName(ops, x, n);
      }
    }
    WalkedOn(ops, root, through, n, out0, rest, out, stack);
  }

  /** Exactly the names some nonempty accepted dependent path from the root ends at. */
  method DownstreamThrough(ops: seq<Op>, root: string, through: string -> bool) returns (out: set<string>)
    ensures forall name :: name in out <==> ReachedThrough(ops, root, through, name)
  {
    var dependents := DependentNames(ops);
    out := {};
    var stack := [root];
    while stack != []
      invariant Sound(ops, root, through, out, stack) && Walked(ops, root, through, out, stack)
      invariant out <= AllNames(ops)
      decreases |AllNames(ops) - out|, |stack|
    {
      ghost var before := out;
      out, stack := PopAndVisit(ops, dependents, root, through, out, stack);
      if out != before {
        Shrinks(AllNames(ops), before, out);
      }
    }
    ReachedIsHeld(ops, root, through, out);
  }

  lemma ReachedIsHeld(ops: seq<Op>, root: string, through: string -> bool, out: set<string>)
    requires Sound(ops, root, through, out, []) && Walked(ops, root, through, out, [])
    ensures forall name :: name in out <==> ReachedThrough(ops, root, through, name)
  {
    forall name | ReachedThrough(ops, root, through, name) ensures name in out {
      var p :| DependentPath(ops, root, through, p) && p[|p| - 1] == name;
      ClosedHoldsPath(ops, root, through, out, p);
    }
  }

  method Downstream(ops: seq<Op>, root: string) returns (out: set<string>)
    ensures forall name :: name in out <==> ReachedThrough(ops, root, _ => true, name)
  {
    out := DownstreamThrough(ops, root, _ => true);
  }

  /** A cycle read backwards is a dependent path, and the other way round. */
  lemma CycleIsDependentPath(ops: seq<Op>, i: nat, p: seq<nat>)
    requires i < |ops| && CycleThrough(ops, i, p)
    ensures ReachedThrough(ops, ops[i].name, _ => true, ops[i].name)
  {
    var k: nat := |p| - 2;
    assert DependsOn(ops, p[k], p[k + 1]);
    StepReached(ops, ops[i].name, _ => true, ops[i].name, ops[p[k]].name);
    while k > 0
      invariant k < |p| - 1 && p[k] < |ops|
      invariant ReachedThrough(ops, ops[i].name, _ => true, ops[p[k]].name)
    {
      assert DependsOn(ops, p[k - 1], p[k - 1 + 1]);
      StepReached(ops, ops[i].name, _ => true, ops[p[k]].name, ops[p[k - 1]].name);
      k := k - 1;
    }
  }

  lemma DependentPathIsCycle(ops: seq<Op>, i: nat, q: seq<string>)
    requires UniqueNames(ops) && i < |ops|
    requires DependentPath(ops, ops[i].name, _ => true, q) && q[|q| - 1] == ops[i].name
    ensures OnCycle(ops, i)
  {
    var c: seq<nat> := [i];
    var k: nat := 0;
    while k < |q| - 1
      invariant k < |q| && |c| == k + 1 && Walk(ops, c)
      invariant c[0] < |ops| && ops[c[0]].name == q[k] && c[k] == i
    {
      assert ReadsName(ops, q[k + 1], q[k]);
      var up: nat :| up < |ops| && ops[up].name == q[k + 1] && q[k] in ops[up].deps;
      WalkFrom(ops, up, c);
      c := [up] + c;
      k := k + 1;
    }
    assert CycleThrough(ops, i, c);
  }

  lemma WalkFrom(ops: seq<Op>, up: nat, c: seq<nat>)
    requires |c| > 0 && Walk(ops, c) && DependsOn(ops, up, c[0])
    ensures Walk(ops, [up] + c)
  {
    var p := [up] + c;
    forall k | 0 <= k < |p| - 1 ensures DependsOn(ops, p[k], p[k + 1]) {
      if k > 0 {
        assert DependsOn(ops, c[k - 1], c[k - 1 + 1]);
      }
    }
  }

  /** The root is left out of its own downstream exactly when it is on no cycle. */
  lemma RootExcludedIffAcyclic(ops: seq<Op>, i: nat)
    requires UniqueNames(ops) && i < |ops|
    ensures ReachedThrough(ops, ops[i].name, _ => true, ops[i].name) <==> OnCycle(ops, i)
  {
    if OnCycle(ops, i) {
      var p :| CycleThrough(ops, i, p);
      CycleIsDependentPath(ops, i, p);
    }
    var root := ops[i].name;
    if ReachedThrough(ops, root, _ => true, root) {
      var q :| DependentPath(ops, root, _ => true, q) && q[|q| - 1] == root;
      DependentPathIsCycle(ops, i, q);
    }
  }
}
