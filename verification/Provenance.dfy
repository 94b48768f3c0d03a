/** Where every asset came from: the forward pass of src/asset.rs against reachability. */
module Provenance {
  import opened Prelude
  import opened Assets
  import Graph

  // What comes before the first `/`, if there is one.
  function Prefix(name: string): Option<string> {
    if name == [] then None
    else if name[0] == '/' then Some("")
    else
      var rest := Prefix(name[1..]);
      if rest.Some? then Some([name[0]] + rest.value) else None
  }

  /** The group declared, else the part of the name before its first `/` unless that is empty, else none. */
  function GroupOf(m: AssetMeta): Option<string> {
    if m.group.Some? then m.group
    else
      var prefix := Prefix(m.name);
      if prefix.Some? && prefix.value != "" then prefix else None
  }

  function Label(m: AssetMeta): string {
    var group := GroupOf(m);
    if group.Some? then group.value else m.name
  }

  // The first `/` of a name is here.
  predicate SlashAt(name: string, i: nat) {
    i < |name| && name[i] == '/' && '/' !in name[..i]
  }

  lemma {:induction false} PrefixSays(name: string, i: nat)
    ensures Prefix(name).None? <==> '/' !in name
    ensures SlashAt(name, i) ==> Prefix(name) == Some(name[..i])
  {
    if name != [] {
      assert name == [name[0]] + name[1..];
      if i > 0 && i < |name| {
        assert name[..i] == [name[0]] + name[1..][..i - 1];
        PrefixSays(name[1..], i - 1);
      } else {
        PrefixSays(name[1..], 0);
      }
      if name[0] == '/' && i > 0 && i < |name| {
        assert name[..i][0] == '/';
      }
    }
  }

  /** The name an asset goes under: its group's as declared, or as its name says before a `/`, or its own. */
  ghost predicate GoesUnder(m: AssetMeta, mark: string) {
    if m.group.Some? then mark == m.group.value
    else if '/' in m.name && m.name[0] != '/' then exists i: nat :: SlashAt(m.name, i) && mark == m.name[..i]
    else mark == m.name
  }

  lemma {:induction false} FirstSlash(name: string) returns (i: nat)
    requires '/' in name
    ensures SlashAt(name, i)
  {
    if name[0] == '/' {
      i := 0;
    } else {
      assert name == [name[0]] + name[1..];
      var j := FirstSlash(name[1..]);
      i := j + 1;
      assert name[..i] == [name[0]] + name[1..][..j];
    }
  }

  lemma NoneBefore(name: string, i: nat, j: nat)
    requires i < j <= |name|
    ensures name[i] in name[..j]
  {
    assert name[..j][i] == name[i];
  }

  lemma OneFirstSlash(name: string, i: nat, j: nat)
    requires SlashAt(name, i) && SlashAt(name, j)
    ensures i == j
  {
    if i < j {
      NoneBefore(name, i, j);
    } else if j < i {
      NoneBefore(name, j, i);
    }
  }

  lemma LabelSays(m: AssetMeta, mark: string)
    ensures Label(m) == mark <==> GoesUnder(m, mark)
  {
    if m.group.None? && '/' in m.name {
      var i := FirstSlash(m.name);
      PrefixSays(m.name, i);
      forall j: nat | SlashAt(m.name, j) ensures j == i {
        OneFirstSlash(m.name, i, j);
      }
    } else if m.group.None? {
      PrefixSays(m.name, 0);
    }
  }

  ghost predicate Downstream(reg: Registry, root: Name, name: Name) {
    Graph.ReachedThrough(Pairs(reg.metas), root, _ => true, name)
  }

  ghost predicate OriginOf(reg: Registry, j: nat, name: Name) {
    j < |reg.metas| && reg.metas[j].source && (reg.metas[j].name == name || Downstream(reg, reg.metas[j].name, name))
  }

  /** A label is in an asset's provenance iff a source drawn under it is the asset or has it downstream. */
  ghost predicate Originates(reg: Registry, mark: string, name: Name) {
    exists j :: 0 <= j < |reg.metas| && OriginOf(reg, j, name) && Label(reg.metas[j]) == mark
  }

  ghost predicate Origins(reg: Registry, name: Name, labels: set<string>) {
    forall mark :: mark in labels <==> Originates(reg, mark, name)
  }

  /** Said without labels: some source that goes under this name is the asset or has it downstream. */
  lemma OriginatesSays(reg: Registry, mark: string, name: Name)
    ensures Originates(reg, mark, name) <==>
            exists j :: 0 <= j < |reg.metas| && OriginOf(reg, j, name) && GoesUnder(reg.metas[j], mark)
  {
    forall j | 0 <= j < |reg.metas| ensures Label(reg.metas[j]) == mark <==> GoesUnder(reg.metas[j], mark) {
      LabelSays(reg.metas[j], mark);
    }
    if Originates(reg, mark, name) {
      var j :| 0 <= j < |reg.metas| && OriginOf(reg, j, name) && Label(reg.metas[j]) == mark;
    }
  }

  lemma ReadsIsDep(reg: Registry, reader: Name, dep: Name)
    requires reg.NamesIndexed() && reader in reg.byName
    ensures Graph.ReadsName(Pairs(reg.metas), reader, dep) <==> dep in reg.Meta(reader).deps
  {
    var pairs := Pairs(reg.metas);
    var at := reg.byName[reader];
    assert pairs[at].name == reader;
    if i :| 0 <= i < |pairs| && pairs[i].name == reader && dep in pairs[i].deps {
      assert reg.metas[i].name == reader;
    }
  }

  /** Being downstream of a root is reading it, or reading something downstream of it. */
  lemma LastStep(reg: Registry, root: Name, name: Name)
    requires reg.NamesIndexed() && name in reg.byName
    ensures Downstream(reg, root, name) <==>
            exists d :: d in reg.Meta(name).deps && (d == root || Downstream(reg, root, d))
  {
    var pairs := Pairs(reg.metas);
    if Downstream(reg, root, name) {
      var p :| Graph.DependentPath(pairs, root, _ => true, p) && p[|p| - 1] == name;
      var d := p[|p| - 2];
      assert Graph.ReadsName(pairs, p[|p| - 2 + 1], p[|p| - 2]);
      ReadsIsDep(reg, name, d);
      if |p| > 2 {
        var q := p[..|p| - 1];
        forall k | 0 <= k < |q| - 1 ensures Graph.ReadsName(pairs, q[k + 1], q[k]) {
          assert Graph.ReadsName(pairs, p[k + 1], p[k]);
        }
        assert Graph.DependentPath(pairs, root, _ => true, q) && q[|q| - 1] == d;
      }
    }
    if d :| d in reg.Meta(name).deps && (d == root || Downstream(reg, root, d)) {
      ReadsIsDep(reg, name, d);
      Graph.StepReached(pairs, root, _ => true, d, name);
    }
  }

  lemma SourceOrigin(reg: Registry, i: nat)
    requires reg.Valid() && i < |reg.metas| && reg.metas[i].source
    ensures Origins(reg, reg.metas[i].name, {Label(reg.metas[i])})
  {
    assert reg.ValidMeta(i);
    forall mark ensures mark in {Label(reg.metas[i])} <==> Originates(reg, mark, reg.metas[i].name) {
      assert OriginOf(reg, i, reg.metas[i].name);
      if j :| 0 <= j < |reg.metas| && OriginOf(reg, j, reg.metas[i].name) && Label(reg.metas[j]) == mark {
        LastStep(reg, reg.metas[j].name, reg.metas[i].name);
        assert reg.metas[j].name == reg.metas[i].name && j == reg.byName[reg.metas[j].name];
      }
    }
  }

  /** What a derived asset descends from is what one of its deps is or descends from. */
  lemma DerivedOrigin(reg: Registry, mark: string, i: nat)
    requires reg.Valid() && i < |reg.metas| && !reg.metas[i].source
    ensures Originates(reg, mark, reg.metas[i].name) <==>
            FromDeps(reg, mark, reg.metas[i].deps)
  {
    var name := reg.metas[i].name;
    if j :| 0 <= j < |reg.metas| && OriginOf(reg, j, name) && Label(reg.metas[j]) == mark {
      LastStep(reg, reg.metas[j].name, name);
      assert reg.byName[name] == i;
      var d :| d in reg.Meta(name).deps && (d == reg.metas[j].name || Downstream(reg, reg.metas[j].name, d));
      assert OriginOf(reg, j, d);
    }
    if d :| d in reg.metas[i].deps && Originates(reg, mark, d) {
      var j :| 0 <= j < |reg.metas| && OriginOf(reg, j, d) && Label(reg.metas[j]) == mark;
      LastStep(reg, reg.metas[j].name, name);
      assert OriginOf(reg, j, name);
    }
  }

  method WalkProvenance(reg: Registry) returns (provenance: seq<set<string>>)
    requires reg.Valid()
    ensures |provenance| == |reg.metas|
    ensures forall i :: 0 <= i < |reg.metas| ==> Origins(reg, reg.metas[i].name, provenance[i])
  {
    provenance := [];
    for i := 0 to |reg.metas|
      invariant |provenance| == i
      invariant forall k :: 0 <= k < i ==> Origins(reg, reg.metas[k].name, provenance[k])
    {
      var m := reg.metas[i];
      var from: set<string> := {};
      if m.source {
        from := {Label(m)};
        SourceOrigin(reg, i);
      } else {
        from := UnionOfDeps(reg, i, provenance);
        forall mark ensures mark in from <==> Originates(reg, mark, m.name) {
          DerivedOrigin(reg, mark, i);
        }
      }
      provenance := provenance + [from];
    }
  }

  ghost predicate FromDeps(reg: Registry, mark: string, deps: seq<Name>) {
    exists d :: d in deps && Originates(reg, mark, d)
  }

  lemma FromOneMore(reg: Registry, mark: string, deps: seq<Name>, d: Name)
    ensures FromDeps(reg, mark, deps + [d]) <==> FromDeps(reg, mark, deps) || Originates(reg, mark, d)
  {
    assert d in deps + [d];
  }

  lemma DepOrigins(reg: Registry, i: nat, d: Name, provenance: seq<set<string>>)
    requires reg.Valid() && i < |reg.metas| && |provenance| == i && d in reg.metas[i].deps
    requires forall k :: 0 <= k < i ==> Origins(reg, reg.metas[k].name, provenance[k])
    ensures d in reg.byName && reg.byName[d] < i && Origins(reg, d, provenance[reg.byName[d]])
  {
    assert reg.ValidMeta(i);
    var at := reg.byName[d];
    assert Origins(reg, reg.metas[at].name, provenance[at]);
  }

  method UnionOfDeps(reg: Registry, i: nat, provenance: seq<set<string>>) returns (from: set<string>)
    requires reg.Valid() && i < |reg.metas| && |provenance| == i
    requires forall k :: 0 <= k < i ==> Origins(reg, reg.metas[k].name, provenance[k])
    ensures forall mark :: mark in from <==> FromDeps(reg, mark, reg.metas[i].deps)
  {
    var deps := reg.metas[i].deps;
    from := {};
    for t := 0 to |deps|
      invariant forall mark :: mark in from <==> FromDeps(reg, mark, deps[..t])
    {
      DepOrigins(reg, i, deps[t], provenance);
      assert deps[..t + 1] == deps[..t] + [deps[t]];
      ghost var before := from;
      from := from + provenance[reg.byName[deps[t]]];
      forall mark ensures mark in from <==> FromDeps(reg, mark, deps[..t + 1]) {
        FromOneMore(reg, mark, deps[..t], deps[t]);
      }
    }
    assert deps[..|deps|] == deps;
  }
}
