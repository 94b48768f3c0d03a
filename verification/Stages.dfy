/**
 * The stages a run goes through (src/cli.rs): each op one past the deepest of
 * its in-job deps, over a job's own topological order.
 */
module Stages {
  import opened Graph

  // `j` is an op of the job that `i` depends on; a dep naming no op is external.
  ghost predicate Needs(ordered: seq<Op>, i: int, j: int) {
    0 <= i && 0 <= j && DependsOn(ordered, i, j)
  }

  /** What a job's order promises: unique names, and a dep never after the op naming it. */
  ghost predicate JobOrder(ordered: seq<Op>) {
    && UniqueNames(ordered)
    && forall i, j :: Needs(ordered, i, j) ==> j < i
  }

  ghost predicate Arranged(ops: seq<Op>, order: seq<nat>, ordered: seq<Op>) {
    |ordered| == |order| && forall k :: 0 <= k < |order| ==> order[k] < |ops| && ordered[k] == ops[order[k]]
  }

  /** A topological order of distinct ops, which is what a job keeps, is a job order. */
  lemma TopologicalIsJobOrder(ops: seq<Op>, order: seq<nat>, ordered: seq<Op>)
    requires UniqueNames(ops) && Topological(ops, order) && Arranged(ops, order, ordered)
    ensures JobOrder(ordered)
  {
    forall i, j | 0 <= i < j < |ordered| ensures ordered[i].name != ordered[j].name {
      assert order[i] != order[j];
    }
    forall i, j | Needs(ordered, i, j) ensures j < i {
      assert DependsOn(ops, order[i], order[j]);
      assert order[j] in order[..i];
      var k :| 0 <= k < i && order[k] == order[j];
    }
  }

  /** Each op sits just above the deepest of its deps. */
  ghost predicate Levels(ordered: seq<Op>, depth: seq<nat>) {
    && |depth| == |ordered|
    && forall i :: 0 <= i < |ordered| ==> Level(ordered, depth, i)
  }

  ghost predicate Level(ordered: seq<Op>, depth: seq<nat>, i: nat)
    requires i < |ordered| && i < |depth|
  {
    && (forall j :: Needs(ordered, i, j) && j < |depth| ==> depth[j] < depth[i])
    && (depth[i] == 0 || exists j :: Needs(ordered, i, j) && j < |depth| && depth[j] + 1 == depth[i])
  }

  /** The ops at one depth, in the job's order. */
  ghost function Layer(ordered: seq<Op>, depth: seq<nat>, d: nat): seq<Op>
    requires |depth| == |ordered|
  {
    if ordered == [] then []
    else
      var n := |ordered| - 1;
      Layer(ordered[..n], depth[..n], d) + if depth[n] == d then [ordered[n]] else []
  }

  ghost predicate AreLayers(ordered: seq<Op>, depth: seq<nat>, stages: seq<seq<Op>>) {
    && |depth| == |ordered|
    && (forall d :: 0 <= d < |stages| ==> stages[d] == Layer(ordered, depth, d))
    && forall i :: 0 <= i < |depth| ==> depth[i] < |stages|
  }

  ghost predicate Chain(ordered: seq<Op>, c: seq<nat>) {
    && (forall k :: 0 <= k < |c| ==> c[k] < |ordered|)
    && forall k :: 0 <= k < |c| - 1 ==> Needs(ordered, c[k + 1], c[k])
  }

  /** Any way of numbering the ops in which a dep comes strictly before. */
  ghost predicate Layering(ordered: seq<Op>, layer: seq<nat>) {
    && |layer| == |ordered|
    && forall i, j :: Needs(ordered, i, j) ==> layer[j] < layer[i]
  }

  // ----------------------------------------------------------- the algorithm

  ghost predicate DepthMap(ordered: seq<Op>, depth: seq<nat>, known: map<string, nat>) {
    && |depth| <= |ordered|
    && (forall i :: 0 <= i < |depth| ==> ordered[i].name in known && known[ordered[i].name] == depth[i])
    && forall name :: name in known ==> exists i :: 0 <= i < |depth| && ordered[i].name == name
  }

  /** One past the deepest dep already placed, and 0 with none. */
  method Deepest(ordered: seq<Op>, known: map<string, nat>, ghost depth: seq<nat>,
                 deps: seq<string>) returns (level: nat)
    requires UniqueNames(ordered) && DepthMap(ordered, depth, known)
    ensures forall j :: 0 <= j < |depth| && ordered[j].name in deps ==> depth[j] < level
    ensures level == 0 || exists j :: 0 <= j < |depth| && ordered[j].name in deps && depth[j] + 1 == level
  {
    level := 0;
    for k := 0 to |deps|
      invariant forall j :: 0 <= j < |depth| && ordered[j].name in deps[..k] ==> depth[j] < level
      invariant level == 0 || exists j :: 0 <= j < |depth| && ordered[j].name in deps[..k] && depth[j] + 1 == level
    {
      assert deps[..k + 1] == deps[..k] + [deps[k]];
      if deps[k] in known && known[deps[k]] + 1 > level {
        level := known[deps[k]] + 1;
      }
    }
    assert deps[..|deps|] == deps;
  }

  lemma LevelKept(ordered: seq<Op>, depth: seq<nat>, i: nat, next: nat)
    requires JobOrder(ordered) && i < |depth| < |ordered| && Level(ordered, depth, i)
    ensures Level(ordered, depth + [next], i)
  {
    forall j | Needs(ordered, i, j) ensures j < |depth| {}
    if depth[i] != 0 {
      var j :| Needs(ordered, i, j) && j < |depth| && depth[j] + 1 == depth[i];
      assert (depth + [next])[j] + 1 == (depth + [next])[i];
    }
  }

  lemma LevelAdded(ordered: seq<Op>, depth: seq<nat>, next: nat)
    requires JobOrder(ordered) && |depth| < |ordered|
    requires forall j :: 0 <= j < |depth| && ordered[j].name in ordered[|depth|].deps ==> depth[j] < next
    requires next == 0 || exists j ::
               0 <= j < |depth| && ordered[j].name in ordered[|depth|].deps && depth[j] + 1 == next
    ensures Level(ordered, depth + [next], |depth|)
  {
    var i, after := |depth|, depth + [next];
    forall j | Needs(ordered, i, j) && j < |after| ensures after[j] < after[i] {
      assert j < i;
    }
    if next != 0 {
      var j :| 0 <= j < |depth| && ordered[j].name in ordered[i].deps && depth[j] + 1 == next;
      assert Needs(ordered, i, j) && after[j] + 1 == after[i];
    }
  }

  method Stage(ordered: seq<Op>) returns (stages: seq<seq<Op>>, ghost depth: seq<nat>)
    requires JobOrder(ordered)
    ensures Levels(ordered, depth) && AreLayers(ordered, depth, stages)
    ensures forall d :: 0 <= d < |stages| ==> stages[d] != []
  {
    var known: map<string, nat> := map[];
    depth := [];
    for i := 0 to |ordered|
      invariant |depth| == i && DepthMap(ordered, depth, known)
      invariant forall k :: 0 <= k < i ==> Level(ordered, depth, k)
    {
      var level := Deepest(ordered, known, depth, ordered[i].deps);
      LevelAdded(ordered, depth, level);
      forall k | 0 <= k < i ensures Level(ordered, depth + [level], k) {
        LevelKept(ordered, depth, k, level);
      }
      known := known[ordered[i].name := level];
      depth := depth + [level];
    }
    stages := Fill(ordered, known, depth);
  }

  method PadTo(at: nat, stages0: seq<seq<Op>>) returns (stages: seq<seq<Op>>)
    ensures |stages| == if |stages0| <= at then at + 1 else |stages0|
    ensures forall d :: 0 <= d < |stages| ==> stages[d] == if d < |stages0| then stages0[d] else []
  {
    stages := stages0;
    while |stages| <= at
      invariant |stages0| <= |stages| && (|stages| == |stages0| || |stages| <= at + 1)
      invariant forall d :: 0 <= d < |stages| ==> stages[d] == if d < |stages0| then stages0[d] else []
    {
      stages := stages + [[]];
    }
  }

  lemma LayersGrow(ordered: seq<Op>, depth: seq<nat>, i: nat, before: seq<seq<Op>>, stages: seq<seq<Op>>)
    requires |depth| == |ordered| && i < |ordered|
    requires AreLayers(ordered[..i], depth[..i], before)
    requires |stages| == if |before| <= depth[i] then depth[i] + 1 else |before|
    requires forall d :: 0 <= d < |stages| ==>
               stages[d] == (if d < |before| then before[d] else []) + if d == depth[i] then [ordered[i]] else []
    ensures AreLayers(ordered[..i + 1], depth[..i + 1], stages)
  {
    assert ordered[..i + 1][..i] == ordered[..i] && depth[..i + 1][..i] == depth[..i];
    forall d | 0 <= d < |stages| ensures stages[d] == Layer(ordered[..i + 1], depth[..i + 1], d) {
      if d >= |before| {
        EmptyAbove(ordered[..i], depth[..i], d);
      }
    }
  }

  method Fill(ordered: seq<Op>, known: map<string, nat>, ghost depth: seq<nat>) returns (stages: seq<seq<Op>>)
    requires UniqueNames(ordered) && Levels(ordered, depth) && DepthMap(ordered, depth, known)
    ensures AreLayers(ordered, depth, stages)
    ensures forall d :: 0 <= d < |stages| ==> stages[d] != []
  {
    stages := [];
    for i := 0 to |ordered|
      invariant AreLayers(ordered[..i], depth[..i], stages)
      invariant stages == [] || exists k :: 0 <= k < i && depth[k] == |stages| - 1
    {
      var at := known[ordered[i].name];
      ghost var before := stages;
      stages := PadTo(at, stages);
      stages := stages[at := stages[at] + [ordered[i]]];
      LayersGrow(ordered, depth, i, before, stages);
    }
    assert ordered[..|ordered|] == ordered && depth[..|ordered|] == depth;
    forall d | 0 <= d < |stages| ensures stages[d] != [] {
      var k :| 0 <= k < |ordered| && depth[k] == |stages| - 1;
      var j := DownTo(ordered, depth, k, d);
      InLayer(ordered, depth, j);
    }
  }

  lemma {:induction false} EmptyAbove(ordered: seq<Op>, depth: seq<nat>, d: nat)
    requires |depth| == |ordered| && forall i :: 0 <= i < |depth| ==> depth[i] < d
    ensures Layer(ordered, depth, d) == []
  {
    if ordered != [] {
      EmptyAbove(ordered[..|ordered| - 1], depth[..|ordered| - 1], d);
    }
  }

  /** From an op at some depth, following deps reaches every depth below it. */
  lemma {:induction false} DownTo(ordered: seq<Op>, depth: seq<nat>, i: nat, d: nat) returns (j: nat)
    requires Levels(ordered, depth) && i < |ordered| && d <= depth[i]
    ensures j < |ordered| && depth[j] == d
    decreases depth[i]
  {
    if depth[i] == d {
      j := i;
    } else {
      assert Level(ordered, depth, i);
      var below :| Needs(ordered, i, below) && below < |depth| && depth[below] + 1 == depth[i];
      j := DownTo(ordered, depth, below, d);
    }
  }

  lemma {:induction false} InLayer(ordered: seq<Op>, depth: seq<nat>, i: nat)
    requires |depth| == |ordered| && i < |ordered|
    ensures ordered[i] in Layer(ordered, depth, depth[i])
  {
    var n := |ordered| - 1;
    if i < n {
      InLayer(ordered[..n], depth[..n], i);
    }
  }

  // ----------------------------------------------------------- what a layering is worth

  lemma {:induction false} LayerHolds(ordered: seq<Op>, depth: seq<nat>, d: nat, op: Op) returns (i: nat)
    requires |depth| == |ordered| && op in Layer(ordered, depth, d)
    ensures i < |ordered| && ordered[i] == op && depth[i] == d
  {
    var n := |ordered| - 1;
    if op in Layer(ordered[..n], depth[..n], d) {
      i := LayerHolds(ordered[..n], depth[..n], d, op);
    } else {
      i := n;
    }
  }

  ghost function Sum(stages: seq<seq<Op>>): nat {
    if stages == [] then 0 else |stages[0]| + Sum(stages[1..])
  }

  lemma {:induction false} SumOneMore(stages: seq<seq<Op>>, at: nat, op: Op)
    requires at < |stages|
    ensures Sum(stages[at := stages[at] + [op]]) == Sum(stages) + 1
  {
    var after := stages[at := stages[at] + [op]];
    if at == 0 {
      assert after[1..] == stages[1..];
    } else {
      assert after[1..] == stages[1..][at - 1 := stages[1..][at - 1] + [op]];
      SumOneMore(stages[1..], at - 1, op);
    }
  }

  lemma {:induction false} SumOfEmpties(stages: seq<seq<Op>>)
    requires forall d :: 0 <= d < |stages| ==> stages[d] == []
    ensures Sum(stages) == 0
  {
    if stages != [] {
      SumOfEmpties(stages[1..]);
    }
  }

  ghost predicate OnlyIn(stages: seq<seq<Op>>, op: Op, d: nat) {
    forall e :: 0 <= e < |stages| ==> (op in stages[e] <==> e == d)
  }

  lemma InOneStage(ordered: seq<Op>, depth: seq<nat>, stages: seq<seq<Op>>, i: nat, e: nat)
    requires UniqueNames(ordered) && AreLayers(ordered, depth, stages) && i < |ordered| && e < |stages|
    ensures ordered[i] in stages[e] <==> e == depth[i]
  {
    InLayer(ordered, depth, i);
    if ordered[i] in stages[e] {
      var j := LayerHolds(ordered, depth, e, ordered[i]);
      assert ordered[i].name == ordered[j].name;
    }
  }

  /** The stages hold every op of the job, each in exactly one stage, once, and nothing else. */
  lemma StagesPartition(ordered: seq<Op>, depth: seq<nat>, stages: seq<seq<Op>>)
    requires UniqueNames(ordered) && AreLayers(ordered, depth, stages)
    ensures Sum(stages) == |ordered|
    ensures forall i :: 0 <= i < |ordered| ==> OnlyIn(stages, ordered[i], depth[i])
    ensures forall d, op :: 0 <= d < |stages| && op in stages[d] ==> op in ordered
  {
    SumOfLayers(ordered, depth, stages);
    forall i, e | 0 <= i < |ordered| && 0 <= e < |stages| ensures ordered[i] in stages[e] <==> e == depth[i] {
      InOneStage(ordered, depth, stages, i, e);
    }
    forall d, op | 0 <= d < |stages| && op in stages[d] ensures op in ordered {
      var i := LayerHolds(ordered, depth, d, op);
    }
  }

  lemma {:induction false} SumOfLayers(ordered: seq<Op>, depth: seq<nat>, stages: seq<seq<Op>>)
    requires AreLayers(ordered, depth, stages)
    ensures Sum(stages) == |ordered|
  {
    if ordered == [] {
      SumOfEmpties(stages);
    } else {
      var n := |ordered| - 1;
      var before := seq(|stages|, d requires 0 <= d < |stages| => Layer(ordered[..n], depth[..n], d));
      SumOfLayers(ordered[..n], depth[..n], before);
      SumOneMore(before, depth[n], ordered[n]);
      forall d | 0 <= d < |stages| ensures stages[d] == before[depth[n] := before[depth[n]] + [ordered[n]]][d] {
        assert stages[d] == Layer(ordered, depth, d);
      }
      assert stages == before[depth[n] := before[depth[n]] + [ordered[n]]];
    }
  }

  lemma {:induction false} ChainClimbs(ordered: seq<Op>, depth: seq<nat>, c: seq<nat>)
    requires Levels(ordered, depth) && Chain(ordered, c) && c != []
    ensures depth[c[0]] + |c| - 1 <= depth[c[|c| - 1]]
  {
    if |c| > 1 {
      var rest := c[..|c| - 1];
      forall k | 0 <= k < |rest| - 1 ensures Needs(ordered, rest[k + 1], rest[k]) {
        assert Needs(ordered, c[k + 1], c[k]);
      }
      ChainClimbs(ordered, depth, rest);
      var k := |c| - 2;
      assert Needs(ordered, c[k + 1], c[k]) && Level(ordered, depth, c[k + 1]);
    }
  }

  /** No path of deps, however long, joins two ops of one stage. */
  lemma StageIsIndependent(ordered: seq<Op>, depth: seq<nat>, stages: seq<seq<Op>>, c: seq<nat>, d: nat, e: nat)
    requires UniqueNames(ordered) && Levels(ordered, depth) && AreLayers(ordered, depth, stages)
    requires Chain(ordered, c) && |c| >= 2
    requires d < |stages| && e < |stages| && ordered[c[0]] in stages[d] && ordered[c[|c| - 1]] in stages[e]
    ensures d < e
  {
    ChainClimbs(ordered, depth, c);
    var i := LayerHolds(ordered, depth, d, ordered[c[0]]);
    var j := LayerHolds(ordered, depth, e, ordered[c[|c| - 1]]);
    assert i == c[0] && j == c[|c| - 1];
  }

  /** In any layering at all, an op is at least as deep as its stage. */
  lemma {:induction false} DepthIsLeast(ordered: seq<Op>, depth: seq<nat>, layer: seq<nat>, i: nat)
    requires Levels(ordered, depth) && Layering(ordered, layer) && i < |ordered|
    ensures depth[i] <= layer[i]
    decreases depth[i]
  {
    assert Level(ordered, depth, i);
    if depth[i] != 0 {
      var j :| Needs(ordered, i, j) && j < |depth| && depth[j] + 1 == depth[i];
      DepthIsLeast(ordered, depth, layer, j);
    }
  }

  lemma {:induction false} ChainTo(ordered: seq<Op>, depth: seq<nat>, i: nat) returns (c: seq<nat>)
    requires Levels(ordered, depth) && i < |ordered|
    ensures Chain(ordered, c) && |c| == depth[i] + 1 && c[|c| - 1] == i
    decreases depth[i]
  {
    assert Level(ordered, depth, i);
    if depth[i] == 0 {
      c := [i];
    } else {
      var j :| Needs(ordered, i, j) && j < |depth| && depth[j] + 1 == depth[i];
      var shorter := ChainTo(ordered, depth, j);
      c := shorter + [i];
      forall k | 0 <= k < |c| - 1 ensures Needs(ordered, c[k + 1], c[k]) {
        if k < |shorter| - 1 {
          assert Needs(ordered, shorter[k + 1], shorter[k]);
        }
      }
    }
  }

  /**
   * The stages are as few as any layering can have: as many as the longest
   * dependency chain, and some op of every layering is numbered at least that
   * high less one.
   */
  lemma StagesAreOptimal(ordered: seq<Op>, depth: seq<nat>, stages: seq<seq<Op>>)
    requires UniqueNames(ordered) && Levels(ordered, depth) && AreLayers(ordered, depth, stages)
    requires forall d :: 0 <= d < |stages| ==> stages[d] != []
    ensures forall c :: Chain(ordered, c) ==> |c| <= |stages|
    ensures stages != [] ==> exists c :: Chain(ordered, c) && |c| == |stages|
    ensures forall layer :: Layering(ordered, layer) && stages != [] ==>
              exists i :: 0 <= i < |layer| && layer[i] >= |stages| - 1
  {
    forall c | Chain(ordered, c) ensures |c| <= |stages| {
      if c != [] {
        ChainClimbs(ordered, depth, c);
      }
    }
    if stages != [] {
      var top := |stages| - 1;
      var i := LayerHolds(ordered, depth, top, stages[top][0]);
      var c := ChainTo(ordered, depth, i);
      assert Chain(ordered, c) && |c| == |stages|;
      forall layer | Layering(ordered, layer) ensures exists i :: 0 <= i < |layer| && layer[i] >= |stages| - 1 {
        DepthIsLeast(ordered, depth, layer, i);
      }
    }
  }
}
