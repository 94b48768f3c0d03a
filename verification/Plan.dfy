/**
 * Build plans (src/asset.rs): which ops run, which keys each partitioned op
 * builds, what everything else is seeded with, and the cells a plan claims.
 */
module Plan {
  import opened Prelude
  import opened Assets
  import opened Freshness
  import opened Builds

  datatype PlanError =
    | UnknownAsset(asset: Name)
    | SourceTarget(asset: Name)
    | NotPartitioned(asset: Name)
    | NoSuchPartition(asset: Name, key: Key)

  // What a run is seeded with: the keys a partitioned op fans out over, or the
  // value of something the plan does not run.
  datatype Seed = KeysOf(op: Name) | ValueOf(op: Name)

  datatype Seeded = Keys(keys: seq<Key>) | Stored(value: Value)

  datatype BuildPlan = BuildPlan(ops: seq<Name>, seeds: map<Seed, Seeded>)

  // ----------------------------------------------------------- what is wanted

  ghost predicate DepPath(reg: Registry, p: seq<Name>)
    requires reg.NamesIndexed()
  {
    && p != [] && (forall k :: 0 <= k < |p| ==> p[k] in reg.byName)
    && forall k :: 0 <= k < |p| - 1 ==> p[k + 1] in reg.Meta(p[k]).deps
  }

  /** A target, or anything a target descends from. */
  ghost predicate Wanted(reg: Registry, targets: seq<Name>, n: Name)
    requires reg.NamesIndexed()
  {
    exists p :: DepPath(reg, p) && p[0] in targets && p[|p| - 1] == n
  }

  ghost predicate ClosedUp(reg: Registry, want: set<Name>, stack: seq<Name>)
    requires reg.NamesIndexed()
  {
    forall n, d :: n in want && n in reg.byName && d in reg.Meta(n).deps ==> d in want || d in stack
  }

  lemma WantedStep(reg: Registry, targets: seq<Name>, n: Name, d: Name)
    requires reg.NamesIndexed() && Wanted(reg, targets, n) && n in reg.byName && d in reg.byName
    requires d in reg.Meta(n).deps
    ensures Wanted(reg, targets, d)
  {
    var p :| DepPath(reg, p) && p[0] in targets && p[|p| - 1] == n;
    var q := p + [d];
    forall k | 0 <= k < |q| - 1 ensures q[k + 1] in reg.Meta(q[k]).deps {
      if k < |p| - 1 {
        assert p[k + 1] in reg.Meta(p[k]).deps;
      }
    }
    assert DepPath(reg, q) && q[0] in targets && q[|q| - 1] == d;
  }

  lemma {:induction false} PathStaysWanted(reg: Registry, want: set<Name>, p: seq<Name>)
    requires reg.NamesIndexed() && DepPath(reg, p) && p[0] in want && ClosedUp(reg, want, [])
    ensures p[|p| - 1] in want
  {
    if |p| > 1 {
      var q := p[..|p| - 1];
      forall k | 0 <= k < |q| - 1 ensures q[k + 1] in reg.Meta(q[k]).deps {
        assert p[k + 1] in reg.Meta(p[k]).deps;
      }
      PathStaysWanted(reg, want, q);
      assert p[|p| - 2 + 1] in reg.Meta(p[|p| - 2]).deps;
    }
  }

  lemma Smaller<T>(all: set<T>, had: set<T>, x: T)
    requires x in all && x !in had
    ensures |all - (had + {x})| < |all - had|
  {
    assert all - had == (all - (had + {x})) + {x};
  }

  ghost predicate Walking(reg: Registry, targets: seq<Name>, want: set<Name>, stack: seq<Name>)
    requires reg.NamesIndexed()
  {
    && (forall n :: n in stack || n in want ==> n in reg.byName && Wanted(reg, targets, n))
    && (forall t :: t in targets ==> t in want || t in stack)
    && ClosedUp(reg, want, stack)
  }

  lemma SkipSeen(reg: Registry, targets: seq<Name>, want: set<Name>, rest: seq<Name>, n: Name)
    requires reg.NamesIndexed() && Walking(reg, targets, want, rest + [n]) && n in want
    ensures Walking(reg, targets, want, rest)
  {
    forall x | x in rest || x in want ensures x in reg.byName && Wanted(reg, targets, x) {
      assert x in rest + [n] || x in want;
    }
    forall t | t in targets ensures t in want || t in rest {
      assert t in want || t in rest + [n];
    }
    forall m, d | m in want && m in reg.byName && d in reg.Meta(m).deps ensures d in want || d in rest {
      assert d in want || d in rest + [n];
    }
  }

  lemma PushDeps(reg: Registry, targets: seq<Name>, want: set<Name>, rest: seq<Name>, n: Name)
    requires reg.Valid() && Walking(reg, targets, want, rest + [n]) && n in reg.byName && Wanted(reg, targets, n)
    ensures Walking(reg, targets, want + {n}, rest + reg.Meta(n).deps)
  {
    assert reg.ValidMeta(reg.byName[n]);
    forall x | x in rest + reg.Meta(n).deps || x in want + {n} ensures x in reg.byName && Wanted(reg, targets, x) {
      if x in reg.Meta(n).deps {
        WantedStep(reg, targets, n, x);
      } else {
        assert x in rest + [n] || x in want;
      }
    }
    forall t | t in targets ensures t in want + {n} || t in rest + reg.Meta(n).deps {
      assert t in want || t in rest + [n];
    }
    forall m, d | m in want + {n} && m in reg.byName && d in reg.Meta(m).deps
      ensures d in want + {n} || d in rest + reg.Meta(n).deps
    {
      if m in want {
        assert d in want || d in rest + [n];
      }
    }
  }

  lemma WantedIsHeld(reg: Registry, targets: seq<Name>, want: set<Name>)
    requires reg.NamesIndexed() && Walking(reg, targets, want, [])
    ensures forall n :: n in want <==> Wanted(reg, targets, n)
  {
    forall n | Wanted(reg, targets, n) ensures n in want {
      var p :| DepPath(reg, p) && p[0] in targets && p[|p| - 1] == n;
      PathStaysWanted(reg, want, p);
    }
  }

  lemma WantedIsClosed(reg: Registry, targets: seq<Name>, want: set<Name>)
    requires reg.Valid() && forall n :: n in want <==> Wanted(reg, targets, n)
    ensures ClosedUp(reg, want, [])
  {
    forall n, d | n in want && n in reg.byName && d in reg.Meta(n).deps ensures d in want {
      assert reg.ValidMeta(reg.byName[n]);
      WantedStep(reg, targets, n, d);
    }
  }

  lemma StartWalking(reg: Registry, targets: seq<Name>)
    requires reg.NamesIndexed() && forall t :: t in targets ==> t in reg.byName
    ensures Walking(reg, targets, {}, targets)
  {
    forall t | t in targets ensures Wanted(reg, targets, t) {
      assert DepPath(reg, [t]) && [t][0] in targets && [t][|[t]| - 1] == t;
    }
  }

  /** The targets and everything upstream of them, and nothing else. */
  method Want(reg: Registry, targets: seq<Name>) returns (want: set<Name>)
    requires reg.Valid() && forall t :: t in targets ==> t in reg.byName
    ensures forall n :: n in want <==> Wanted(reg, targets, n)
    ensures Walking(reg, targets, want, [])
  {
    want := {};
    var stack := targets;
    StartWalking(reg, targets);
    while stack != []
      invariant Walking(reg, targets, want, stack)
      decreases |reg.byName.Keys - want|, |stack|
    {
      var n, rest := stack[|stack| - 1], stack[..|stack| - 1];
      assert stack == rest + [n];
      if n in want {
        SkipSeen(reg, targets, want, rest, n);
        stack := rest;
      } else {
        Smaller(reg.byName.Keys, want, n);
        PushDeps(reg, targets, want, rest, n);
        want := want + {n};
        stack := rest + reg.Meta(n).deps;
      }
    }
    WantedIsHeld(reg, targets, want);
  }

  // ----------------------------------------------------------- what is buildable and owed

  ghost predicate KeyFresh(reg: Registry, sets: Sets, mats: Mats, a: Name, k: Key)
    requires reg.Valid() && a in reg.byName
  {
    a in sets && k in sets[a] && Fresh(reg, sets, mats, Cell(a, Some(k)))
  }

  ghost predicate AssetFresh(reg: Registry, sets: Sets, mats: Mats, a: Name)
    requires reg.Valid() && a in reg.byName
  {
    if a in sets then forall k :: k in sets[a] ==> KeyFresh(reg, sets, mats, a, k)
    else Fresh(reg, sets, mats, Cell(a, None))
  }

  lemma VerdictIsFresh(reg: Registry, sets: Sets, mats: Mats, a: Name, s: Staleness)
    requires reg.Valid() && a in reg.byName && AssetVerdict(reg, sets, mats, a, s)
    ensures s.stale <==> !AssetFresh(reg, sets, mats, a)
    ensures a in sets ==> forall k :: (k in s.parts && !s.parts[k].stale) <==> KeyFresh(reg, sets, mats, a, k)
  {
    if a in sets {
      forall k | k in s.parts ensures !s.parts[k].stale <==> KeyFresh(reg, sets, mats, a, k) {
        assert CellVerdict(reg, sets, mats, Cell(a, Some(k)), s.parts[k]);
      }
    }
  }

  /** A key whose windows its deps hold whole. */
  predicate Buildable(sets: Sets, deps: seq<Name>, maps: map<Name, Mapping>, k: Key) {
    forall dep :: dep in deps && Mapped(sets, maps, dep) ==>
      Resolve(MappingOf(maps, dep), Some(k), sets[dep]).missing == []
  }

  /** Every key of the window on this dep is held, or not due yet. */
  ghost predicate HasWindow(sets: Sets, maps: map<Name, Mapping>, dep: Name, k: Key) {
    dep in sets && dep in maps && maps[dep].Covering? ==>
      forall w :: w in maps[dep].window(k) ==> w in sets[dep] || NotDue(w, sets[dep])
  }

  ghost predicate HasWindows(sets: Sets, deps: seq<Name>, maps: map<Name, Mapping>, k: Key) {
    forall dep :: dep in deps ==> HasWindow(sets, maps, dep, k)
  }

  lemma MissingIff(sets: Sets, maps: map<Name, Mapping>, dep: Name, k: Key)
    requires dep in sets
    ensures Mapped(sets, maps, dep) ==>
              (Resolve(MappingOf(maps, dep), Some(k), sets[dep]).missing == [] <==> HasWindow(sets, maps, dep, k))
    ensures !Mapped(sets, maps, dep) ==> HasWindow(sets, maps, dep, k)
  {
    if dep in maps && maps[dep].Covering? {
      forall w ensures w in Held(maps[dep].window(k), sets[dep]).missing <==>
          w in maps[dep].window(k) && w !in sets[dep] && !NotDue(w, sets[dep]) {
        HeldIff(maps[dep].window(k), sets[dep], w);
      }
      var missing := Held(maps[dep].window(k), sets[dep]).missing;
      if missing != [] {
        assert missing[0] in missing;
      }
    }
  }

  /** Buildable says that of every dep. */
  lemma BuildableIff(sets: Sets, deps: seq<Name>, maps: map<Name, Mapping>, k: Key)
    ensures Buildable(sets, deps, maps, k) <==> HasWindows(sets, deps, maps, k)
  {
    forall dep | dep in sets
      ensures Mapped(sets, maps, dep) ==>
                (Resolve(MappingOf(maps, dep), Some(k), sets[dep]).missing == [] <==> HasWindow(sets, maps, dep, k))
      ensures !Mapped(sets, maps, dep) ==> HasWindow(sets, maps, dep, k)
    {
      MissingIff(sets, maps, dep, k);
    }
  }

  // The first key of a window that its dep neither holds nor will.
  ghost predicate FirstGap(window: seq<Key>, held: seq<Key>, gap: Key) {
    exists i :: 0 <= i < |window| && window[i] == gap && gap !in held && !NotDue(gap, held)
                && forall j :: 0 <= j < i ==> window[j] in held || NotDue(window[j], held)
  }

  lemma {:induction false} FirstMissing(window: seq<Key>, held: seq<Key>)
    requires Held(window, held).missing != []
    ensures FirstGap(window, held, Held(window, held).missing[0])
  {
    var k := window[0];
    HeldIff([k], held, k);
    HeldInOrder([k], window[1..], held);
    assert window == [k] + window[1..];
    if Held([k], held).missing == [] {
      FirstMissing(window[1..], held);
      var gap := Held(window[1..], held).missing[0];
      var i :| 0 <= i < |window[1..]| && window[1..][i] == gap && gap !in held && !NotDue(gap, held)
               && forall j :: 0 <= j < i ==> window[1..][j] in held || NotDue(window[1..][j], held);
      assert window[i + 1] == gap;
      forall j | 0 <= j < i + 1 ensures window[j] in held || NotDue(window[j], held) {
        if j > 0 {
          assert window[1..][j - 1] == window[j];
        }
      }
    } else {
      assert Held([k], held).missing[0] in Held([k], held).missing;
      OnlyItself(k, held);
    }
  }

  lemma OnlyItself(k: Key, held: seq<Key>)
    ensures Held([k], held).missing != [] ==> Held([k], held).missing[0] == k && k !in held && !NotDue(k, held)
  {
    HeldIff([k], held, k);
    assert [k][1..] == [];
  }

  /** The first key one partition promises to read that its dep does not hold. */
  method Unheld(sets: Sets, deps: seq<Name>, maps: map<Name, Mapping>, k: Key) returns (r: Option<(Name, Key)>)
    ensures r.None? <==> Buildable(sets, deps, maps, k)
    ensures r.Some? ==> r.value.0 in deps && Mapped(sets, maps, r.value.0)
                        && r.value.1 in Resolve(MappingOf(maps, r.value.0), Some(k), sets[r.value.0]).missing
                        && r.value.1 !in sets[r.value.0]
    ensures r.None? <==> HasWindows(sets, deps, maps, k)
    ensures r.Some? ==> r.value.0 in sets && r.value.0 in maps && maps[r.value.0].Covering?
                        && FirstGap(maps[r.value.0].window(k), sets[r.value.0], r.value.1)
    ensures r.Some? ==> exists t :: 0 <= t < |deps| && deps[t] == r.value.0 && HasWindows(sets, deps[..t], maps, k)
  {
    BuildableIff(sets, deps, maps, k);
    for t := 0 to |deps|
      invariant Buildable(sets, deps[..t], maps, k)
    {
      assert deps[..t + 1] == deps[..t] + [deps[t]];
      var dep := deps[t];
      if Mapped(sets, maps, dep) {
        var missing := Resolve(MappingOf(maps, dep), Some(k), sets[dep]).missing;
        if missing != [] {
          MappedWithin(MappingOf(maps, dep), Some(k), sets[dep]);
          assert missing[0] in missing;
          FirstMissing(maps[dep].window(k), sets[dep]);
          BuildableIff(sets, deps[..t], maps, k);
          return Some((dep, missing[0]));
        }
      }
    }
    assert deps[..|deps|] == deps;
    return None;
  }

  // ----------------------------------------------------------- default keys

  lemma {:induction false} AfterTotal(a: string, b: string)
    ensures After(a, b) || After(b, a) || a == b
    ensures !(After(a, b) && After(b, a)) && !After(a, a)
  {
    if a != [] && b != [] {
      AfterTotal(a[1..], b[1..]);
      if a[0] == b[0] && a[1..] == b[1..] {
        assert a == [a[0]] + a[1..] && b == [b[0]] + b[1..];
      }
    }
    if a != [] {
      AfterTotal(a[1..], a[1..]);
    }
  }

  lemma {:induction false} AfterTransitive(a: string, b: string, c: string)
    requires After(a, b) && After(b, c)
    ensures After(a, c)
  {
    if c != [] && a[0] == b[0] == c[0] {
      AfterTransitive(a[1..], b[1..], c[1..]);
    }
  }

  ghost predicate Ascending(keys: seq<Key>) {
    forall i, j :: 0 <= i < j < |keys| ==> After(keys[j], keys[i])
  }

  method LeastKey(s: set<Key>) returns (least: Key)
    requires s != {}
    ensures least in s && forall k :: k in s && k != least ==> After(k, least)
  {
    least :| least in s;
    var unseen := s - {least};
    while unseen != {}
      invariant least in s && unseen <= s
      invariant forall k :: k in s && k !in unseen && k != least ==> After(k, least)
    {
      var k :| k in unseen;
      AfterTotal(k, least);
      if After(least, k) {
        forall x | x in s && x !in unseen && x != least ensures After(x, k) {
          AfterTransitive(x, least, k);
        }
        least := k;
      }
      unseen := unseen - {k};
    }
  }

  /** A key set in the order a sorted map walks it. */
  method SortedKeys(s: set<Key>) returns (keys: seq<Key>)
    ensures Ascending(keys) && forall k :: k in keys <==> k in s
  {
    keys := [];
    var rest := s;
    while rest != {}
      invariant rest <= s && Ascending(keys)
      invariant forall k :: k in keys <==> k in s && k !in rest
      invariant forall k, r :: k in keys && r in rest ==> After(r, k)
    {
      var least := LeastKey(rest);
      keys := keys + [least];
      rest := rest - {least};
    }
  }

  ghost predicate Defaultable(reg: Registry, sets: Sets, mats: Mats, a: Name, k: Key)
    requires reg.Valid() && a in reg.byName
  {
    a in sets && k in sets[a] && !KeyFresh(reg, sets, mats, a, k)
    && Buildable(sets, reg.Meta(a).deps, reg.Meta(a).maps, k)
  }

  /** The newest stale buildable keys, newest first, all of them unless the limit is met. */
  ghost predicate NewestStale(reg: Registry, sets: Sets, mats: Mats, a: Name, limit: nat, keys: seq<Key>)
    requires reg.Valid() && a in reg.byName
  {
    && |keys| <= limit
    && (forall k :: k in keys ==> Defaultable(reg, sets, mats, a, k))
    && (forall i, j :: 0 <= i < j < |keys| ==> After(keys[i], keys[j]))
    && forall k :: Defaultable(reg, sets, mats, a, k) && k !in keys ==>
         |keys| == limit && forall x :: x in keys ==> After(x, k)
  }

  // A key the asset has that is not fresh, with all its windows.
  ghost predicate OwedKey(reg: Registry, sets: Sets, mats: Mats, a: Name, k: Key)
    requires reg.Valid() && a in reg.byName
  {
    a in sets && k in sets[a] && !Fresh(reg, sets, mats, Cell(a, Some(k)))
    && HasWindows(sets, reg.Meta(a).deps, reg.Meta(a).maps, k)
  }

  /**
   * The newest owed keys in the order of their characters, each ahead of the next
   * and of every owed key left out; none is left out unless the limit is met.
   */
  ghost predicate NewestOwed(reg: Registry, sets: Sets, mats: Mats, a: Name, limit: nat, keys: seq<Key>)
    requires reg.Valid() && a in reg.byName
  {
    && |keys| <= limit
    && (forall k :: k in keys ==> OwedKey(reg, sets, mats, a, k))
    && (forall i, j :: 0 <= i < j < |keys| ==> Ahead(keys[i], keys[j]))
    && forall k :: OwedKey(reg, sets, mats, a, k) && k !in keys ==>
         |keys| == limit && forall x :: x in keys ==> Ahead(x, k)
  }

  lemma NewestStaleIff(reg: Registry, sets: Sets, mats: Mats, a: Name, limit: nat, keys: seq<Key>)
    requires reg.Valid() && a in reg.byName
    ensures NewestStale(reg, sets, mats, a, limit, keys) <==> NewestOwed(reg, sets, mats, a, limit, keys)
  {
    forall k ensures Defaultable(reg, sets, mats, a, k) <==> OwedKey(reg, sets, mats, a, k) {
      BuildableIff(sets, reg.Meta(a).deps, reg.Meta(a).maps, k);
    }
    forall x, y ensures After(x, y) <==> Ahead(x, y) {
      AfterIff(x, y);
    }
  }

  method StaleKeys(reg: Registry, sets: Sets, mats: Mats, a: Name, verdict: Staleness) returns (keys: seq<Key>)
    requires reg.Valid() && a in reg.byName && a in sets && AssetVerdict(reg, sets, mats, a, verdict)
    ensures Ascending(keys) && forall k :: k in keys <==> Defaultable(reg, sets, mats, a, k)
  {
    VerdictIsFresh(reg, sets, mats, a, verdict);
    var all := SortedKeys(verdict.parts.Keys);
    keys := [];
    for t := 0 to |all|
      invariant Ascending(keys) && forall k :: k in keys <==> k in all[..t] && Defaultable(reg, sets, mats, a, k)
      invariant forall k :: k in keys ==> k in all[..t]
    {
      assert all[..t + 1] == all[..t] + [all[t]];
      assert all[t] in all;
      assert forall k :: k in all[..t] ==> After(all[t], k);
      var stuck := Unheld(sets, reg.Meta(a).deps, reg.Meta(a).maps, all[t]);
      if verdict.parts[all[t]].stale && stuck.None? {
        keys := keys + [all[t]];
      }
    }
    assert all[..|all|] == all;
  }

  lemma TakeNewest(reg: Registry, sets: Sets, mats: Mats, a: Name, limit: nat, asc: seq<Key>, keys: seq<Key>)
    requires reg.Valid() && a in reg.byName && Ascending(asc)
    requires forall k :: k in asc <==> Defaultable(reg, sets, mats, a, k)
    requires |keys| == if |asc| <= limit then |asc| else limit
    requires forall i :: 0 <= i < |keys| ==> keys[i] == asc[|asc| - 1 - i]
    requires forall i :: |asc| - |keys| <= i < |asc| ==> asc[i] == keys[|asc| - 1 - i]
    ensures NewestStale(reg, sets, mats, a, limit, keys)
  {
    forall k | Defaultable(reg, sets, mats, a, k) && k !in keys
      ensures |keys| == limit && forall x :: x in keys ==> After(x, k)
    {
      var i :| 0 <= i < |asc| && asc[i] == k;
    }
    forall k | k in keys ensures Defaultable(reg, sets, mats, a, k) {
      var i :| 0 <= i < |keys| && keys[i] == k;
      assert asc[|asc| - 1 - i] in asc;
    }
  }

  method DefaultKeys(reg: Registry, sets: Sets, mats: Mats, a: Name, limit: nat,
                     verdict: Staleness) returns (keys: seq<Key>)
    requires reg.Valid() && a in reg.byName && a in sets && AssetVerdict(reg, sets, mats, a, verdict)
    ensures NewestStale(reg, sets, mats, a, limit, keys) && NewestOwed(reg, sets, mats, a, limit, keys)
  {
    var asc := StaleKeys(reg, sets, mats, a, verdict);
    var newest := seq(|asc|, i requires 0 <= i < |asc| => asc[|asc| - 1 - i]);
    keys := if |newest| <= limit then newest else newest[..limit];
    TakeNewest(reg, sets, mats, a, limit, asc, keys);
    NewestStaleIff(reg, sets, mats, a, limit, keys);
  }

  // ----------------------------------------------------------- key targets

  /** The reads one planned consumer makes: at no key, or at each key it was given. */
  function Reading(keys: map<Name, seq<Key>>, consumer: OpMeta): seq<Option<Key>> {
    if consumer.partitions.None? then [None]
    else Somes(if consumer.name in keys then keys[consumer.name] else [])
  }

  ghost predicate ReadBy(sets: Sets, keys: map<Name, seq<Key>>, consumer: OpMeta, a: Name, up: Key)
    requires a in sets
  {
    exists at :: at in Reading(keys, consumer) && up in ReadKeys(sets, consumer.maps, a, at)
  }

  /** Some planned op reads this key of the asset, at one of the keys it will build. */
  ghost predicate Demanded(reg: Registry, sets: Sets, ops: seq<Name>, keys: map<Name, seq<Key>>, a: Name, up: Key)
    requires a in sets
  {
    exists c :: c in reg.ops && c.name in ops && a in c.deps && ReadBy(sets, keys, c, a, up)
  }

  /** That is: an op without keys reads it, or one at some key it is to build. */
  lemma DemandedIff(reg: Registry, sets: Sets, ops: seq<Name>, keys: map<Name, seq<Key>>, a: Name, up: Key)
    requires a in sets
    ensures Demanded(reg, sets, ops, keys, a, up) <==>
            exists c :: c in reg.ops && c.name in ops && a in c.deps && ConsumerReads(sets, keys, c, a, up)
  {
    forall c: OpMeta ensures ReadBy(sets, keys, c, a, up) <==> ConsumerReads(sets, keys, c, a, up) {
      ConsumerReadsIff(sets, keys, c, a, up);
    }
  }

  ghost predicate ConsumerReads(sets: Sets, keys: map<Name, seq<Key>>, c: OpMeta, a: Name, up: Key)
    requires a in sets
  {
    if c.partitions.None? then ReadsKey(sets, c, None, a, up)
    else c.name in keys && exists k :: k in keys[c.name] && ReadsKey(sets, c, Some(k), a, up)
  }

  lemma ConsumerReadsIff(sets: Sets, keys: map<Name, seq<Key>>, c: OpMeta, a: Name, up: Key)
    requires a in sets
    ensures ReadBy(sets, keys, c, a, up) <==> ConsumerReads(sets, keys, c, a, up)
  {
    forall at ensures up in ReadKeys(sets, c.maps, a, at) <==> ReadsKey(sets, c, at, a, up) {
      ReadsKeyIff(sets, c, at, a, up);
    }
    if c.partitions.None? {
      assert Reading(keys, c) == [None];
    } else if c.name in keys {
      var ats := Reading(keys, c);
      forall k | k in keys[c.name] ensures Some(k) in ats {
        var i :| 0 <= i < |keys[c.name]| && keys[c.name][i] == k;
        assert ats[i] == Some(k);
      }
      forall at | at in ats ensures at.Some? && at.value in keys[c.name] {
        var i :| 0 <= i < |ats| && ats[i] == at;
        assert keys[c.name][i] == at.value;
      }
    }
  }

  /** What a build starts from: keys named outright, a target's default keys, or nothing. */
  ghost predicate StartsFrom(reg: Registry, sets: Sets, mats: Mats, targets: seq<Name>, named: map<Name, seq<Key>>,
                             a: Name, base: seq<Key>)
    requires reg.Valid() && a in reg.byName
  {
    if a in named then base == named[a]
    else if a in targets && reg.Meta(a).partitions.Some?
    then NewestStale(reg, sets, mats, a, reg.Meta(a).partitions.value.limit, base)
    else base == []
  }

  /**
   * Exactly the keys a partitioned op is to build: those it starts from, and
   * those a planned consumer reads that are owed, less what nothing could build.
   */
  ghost predicate Targets(reg: Registry, sets: Sets, mats: Mats, ops: seq<Name>, keys: map<Name, seq<Key>>, a: Name,
                          base: seq<Key>, want: seq<Key>)
    requires reg.Valid() && a in reg.byName && a in sets
  {
    forall k :: k in want <==>
      && Buildable(sets, reg.Meta(a).deps, reg.Meta(a).maps, k)
      && (k in base || (Demanded(reg, sets, ops, keys, a, k) && !KeyFresh(reg, sets, mats, a, k)))
  }

  ghost predicate TargetsOf(reg: Registry, sets: Sets, mats: Mats, ops: seq<Name>, targets: seq<Name>,
                            named: map<Name, seq<Key>>, keys: map<Name, seq<Key>>, a: Name)
    requires reg.Valid() && a in reg.byName && a in sets && a in keys
  {
    exists base :: StartsFrom(reg, sets, mats, targets, named, a, base) && Targets(reg, sets, mats, ops, keys, a, base,
                                                                                   keys[a])
  }

  method AddReads(reg: Registry, sets: Sets, mats: Mats, a: Name, verdict: Staleness, ups: seq<Key>, want0: seq<Key>)
    returns (want: seq<Key>)
    requires reg.Valid() && a in reg.byName && a in sets && AssetVerdict(reg, sets, mats, a, verdict)
    ensures forall k :: k in want <==> k in want0 || (k in ups && !KeyFresh(reg, sets, mats, a, k))
  {
    VerdictIsFresh(reg, sets, mats, a, verdict);
    want := want0;
    for t := 0 to |ups|
      invariant forall k :: k in want <==> k in want0 || (k in ups[..t] && !KeyFresh(reg, sets, mats, a, k))
    {
      assert ups[..t + 1] == ups[..t] + [ups[t]];
      var owed := ups[t] !in verdict.parts || verdict.parts[ups[t]].stale;
      if owed && ups[t] !in want {
        want := want + [ups[t]];
      }
    }
    assert ups[..|ups|] == ups;
  }

  ghost predicate ReadAtSome(sets: Sets, ats: seq<Option<Key>>, maps: map<Name, Mapping>, a: Name, up: Key)
    requires a in sets
  {
    exists at :: at in ats && up in ReadKeys(sets, maps, a, at)
  }

  lemma ReadAtOneMore(sets: Sets, ats: seq<Option<Key>>, at: Option<Key>, maps: map<Name, Mapping>, a: Name, up: Key)
    requires a in sets
    ensures ReadAtSome(sets, ats + [at], maps, a, up) <==>
            ReadAtSome(sets, ats, maps, a, up) || up in ReadKeys(sets, maps, a, at)
  {
    assert at in ats + [at];
  }

  method AddConsumer(reg: Registry, sets: Sets, mats: Mats, keys: map<Name, seq<Key>>, a: Name, verdict: Staleness,
                     consumer: OpMeta, want0: seq<Key>)
    returns (want: seq<Key>)
    requires reg.Valid() && a in reg.byName && a in sets && AssetVerdict(reg, sets, mats, a, verdict)
    ensures forall k :: k in want <==>
              k in want0 || (ReadBy(sets, keys, consumer, a, k) && !KeyFresh(reg, sets, mats, a, k))
  {
    want := want0;
    var ats := Reading(keys, consumer);
    for t := 0 to |ats|
      invariant forall k :: k in want <==>
                  k in want0 || (ReadAtSome(sets, ats[..t], consumer.maps, a, k) && !KeyFresh(reg, sets, mats, a, k))
    {
      assert ats[..t + 1] == ats[..t] + [ats[t]];
      ghost var before := want;
      want := AddReads(reg, sets, mats, a, verdict, ReadKeys(sets, consumer.maps, a, ats[t]), want);
      forall k ensures k in want <==>
          k in want0 || (ReadAtSome(sets, ats[..t + 1], consumer.maps, a, k) && !KeyFresh(reg, sets, mats, a, k)) {
        ReadAtOneMore(sets, ats[..t], ats[t], consumer.maps, a, k);
      }
    }
    assert ats[..|ats|] == ats;
    forall k ensures ReadAtSome(sets, ats, consumer.maps, a, k) <==> ReadBy(sets, keys, consumer, a, k) {
    }
  }

  ghost predicate DemandedAmong(reg: Registry, sets: Sets, ops: seq<Name>, keys: map<Name, seq<Key>>, a: Name, up: Key,
                                n: nat)
    requires a in sets && n <= |reg.ops|
  {
    exists i :: 0 <= i < n && reg.ops[i].name in ops && a in reg.ops[i].deps && ReadBy(sets, keys, reg.ops[i], a, up)
  }

  lemma DemandedAmongAll(reg: Registry, sets: Sets, ops: seq<Name>, keys: map<Name, seq<Key>>, a: Name, up: Key)
    requires a in sets
    ensures DemandedAmong(reg, sets, ops, keys, a, up, |reg.ops|) <==> Demanded(reg, sets, ops, keys, a, up)
  {
    if Demanded(reg, sets, ops, keys, a, up) {
      var c :| c in reg.ops && c.name in ops && a in c.deps && ReadBy(sets, keys, c, a, up);
      var i :| 0 <= i < |reg.ops| && reg.ops[i] == c;
    }
  }

  lemma DemandedOneMore(reg: Registry, sets: Sets, ops: seq<Name>, keys: map<Name, seq<Key>>, a: Name, up: Key, i: nat)
    requires a in sets && i < |reg.ops|
    ensures DemandedAmong(reg, sets, ops, keys, a, up, i + 1) <==>
            DemandedAmong(reg, sets, ops, keys, a, up, i)
            || (reg.ops[i].name in ops && a in reg.ops[i].deps && ReadBy(sets, keys, reg.ops[i], a, up))
  {
  }

  method AddDemand(reg: Registry, sets: Sets, mats: Mats, ops: seq<Name>, keys: map<Name, seq<Key>>, a: Name,
                   verdict: Staleness, base: seq<Key>)
    returns (want: seq<Key>)
    requires reg.Valid() && a in reg.byName && a in sets && AssetVerdict(reg, sets, mats, a, verdict)
    ensures forall k :: k in want <==>
              k in base || (Demanded(reg, sets, ops, keys, a, k) && !KeyFresh(reg, sets, mats, a, k))
  {
    want := base;
    for i := 0 to |reg.ops|
      invariant forall k :: k in want <==>
                  k in base || (DemandedAmong(reg, sets, ops, keys, a, k, i) && !KeyFresh(reg, sets, mats, a, k))
    {
      forall k ensures DemandedAmong(reg, sets, ops, keys, a, k, i + 1) <==>
          DemandedAmong(reg, sets, ops, keys, a, k, i)
          || (reg.ops[i].name in ops && a in reg.ops[i].deps && ReadBy(sets, keys, reg.ops[i], a, k)) {
        DemandedOneMore(reg, sets, ops, keys, a, k, i);
      }
      if reg.ops[i].name in ops && a in reg.ops[i].deps {
        want := AddConsumer(reg, sets, mats, keys, a, verdict, reg.ops[i], want);
      }
    }
    forall k ensures DemandedAmong(reg, sets, ops, keys, a, k, |reg.ops|) <==> Demanded(reg, sets, ops, keys, a, k) {
      DemandedAmongAll(reg, sets, ops, keys, a, k);
    }
  }

  method KeepBuildable(sets: Sets, deps: seq<Name>, maps: map<Name, Mapping>, want0: seq<Key>) returns (want: seq<Key>)
    ensures forall k :: k in want <==> k in want0 && Buildable(sets, deps, maps, k)
  {
    want := [];
    for t := 0 to |want0|
      invariant forall k :: k in want <==> k in want0[..t] && Buildable(sets, deps, maps, k)
    {
      assert want0[..t + 1] == want0[..t] + [want0[t]];
      var stuck := Unheld(sets, deps, maps, want0[t]);
      if stuck.None? {
        want := want + [want0[t]];
      }
    }
    assert want0[..|want0|] == want0;
  }

  /** Consumers of a partitioned op come after it in the registry. */
  lemma ConsumersLater(reg: Registry, sets: Sets, o: OpMeta, c: OpMeta)
    requires reg.Valid() && o in reg.ops && o.partitions.Some? && c in reg.ops && o.name in c.deps
    ensures reg.byOp[o.name] < reg.byOp[c.name]
  {
    assert reg.ValidOp(o) && o.name in o.produces;
    ProducerComesFirst(reg, c, o.name);
  }

  /** What an op owes depends only on the keys of the ops after it. */
  lemma DemandSettled(reg: Registry, sets: Sets, ops: seq<Name>, keys: map<Name, seq<Key>>, keys': map<Name, seq<Key>>,
                      o: OpMeta, up: Key)
    requires reg.Valid() && o in reg.ops && o.partitions.Some? && o.name in sets
    requires forall c :: c in reg.ops && reg.byOp[c.name] > reg.byOp[o.name] ==> Reading(keys, c) == Reading(keys', c)
    ensures Demanded(reg, sets, ops, keys, o.name, up) ==> Demanded(reg, sets, ops, keys', o.name, up)
  {
    if Demanded(reg, sets, ops, keys, o.name, up) {
      var c :| c in reg.ops && c.name in ops && o.name in c.deps && ReadBy(sets, keys, c, o.name, up);
      ConsumersLater(reg, sets, o, c);
      assert ReadBy(sets, keys', c, o.name, up);
    }
  }

  ghost predicate Verdicted(reg: Registry, sets: Sets, mats: Mats, stale: map<Name, Staleness>)
    requires reg.Valid()
  {
    stale.Keys == reg.byName.Keys && forall a :: a in stale ==> AssetVerdict(reg, sets, mats, a, stale[a])
  }

  ghost predicate PartitionedOp(reg: Registry, o: OpMeta, ops: seq<Name>) {
    o in reg.ops && o.partitions.Some? && o.name in ops
  }

  method Base(reg: Registry, sets: Sets, mats: Mats, stale: map<Name, Staleness>, targets: seq<Name>,
              named: map<Name, seq<Key>>, a: Name)
    returns (base: seq<Key>)
    requires reg.Valid() && a in reg.byName && a in sets && Verdicted(reg, sets, mats, stale)
    requires reg.Meta(a).partitions.Some?
    ensures StartsFrom(reg, sets, mats, targets, named, a, base)
  {
    if a in named {
      return named[a];
    } else if a in targets {
      base := DefaultKeys(reg, sets, mats, a, reg.Meta(a).partitions.value.limit, stale[a]);
    } else {
      return [];
    }
  }

  lemma PartitionedOpAsset(reg: Registry, sets: Sets, o: OpMeta)
    requires reg.Valid() && SetsFor(reg, sets) && o in reg.ops && o.partitions.Some?
    ensures o.name in reg.byName && o.name in sets && reg.Meta(o.name).partitions.Some?
    ensures reg.Meta(o.name).deps == o.deps && reg.Meta(o.name).maps == o.maps && reg.OpFor(o.name) == o
  {
    assert reg.ValidOp(o) && o.name in o.produces;
    assert Makes(o, reg.Meta(o.name));
  }

  ghost predicate KeysOnlyFor(reg: Registry, ops: seq<Name>, keys: map<Name, seq<Key>>, n: nat)
    requires reg.OpsIndexed()
  {
    forall a :: a in keys ==> exists o :: PartitionedOp(reg, o, ops) && o.name == a && reg.byOp[a] >= n
  }

  ghost predicate AllTargeted(reg: Registry, sets: Sets, mats: Mats, ops: seq<Name>, targets: seq<Name>,
                              named: map<Name, seq<Key>>, keys: map<Name, seq<Key>>, n: nat)
    requires reg.Valid() && SetsFor(reg, sets)
  {
    forall o :: PartitionedOp(reg, o, ops) && reg.byOp[o.name] >= n ==>
      o.name in keys && (PartitionedOpAsset(reg, sets, o); TargetsOf(reg, sets, mats, ops, targets, named, keys,
                                                                     o.name))
  }

  ghost predicate KeyTargetsFrom(reg: Registry, sets: Sets, mats: Mats, ops: seq<Name>, targets: seq<Name>,
                                 named: map<Name, seq<Key>>, keys: map<Name, seq<Key>>, n: nat)
    requires reg.Valid() && SetsFor(reg, sets)
  {
    KeysOnlyFor(reg, ops, keys, n) && AllTargeted(reg, sets, mats, ops, targets, named, keys, n)
  }

  lemma TargetsSettled(reg: Registry, sets: Sets, mats: Mats, ops: seq<Name>, targets: seq<Name>,
                       named: map<Name, seq<Key>>, keys: map<Name, seq<Key>>, keys': map<Name, seq<Key>>, o: OpMeta)
    requires reg.Valid() && SetsFor(reg, sets) && o in reg.ops && o.partitions.Some?
    requires o.name in reg.byName && o.name in sets && o.name in keys && o.name in keys'
    requires keys[o.name] == keys'[o.name]
    requires TargetsOf(reg, sets, mats, ops, targets, named, keys, o.name)
    requires forall c :: c in reg.ops && reg.byOp[c.name] > reg.byOp[o.name] ==> Reading(keys, c) == Reading(keys', c)
    ensures TargetsOf(reg, sets, mats, ops, targets, named, keys', o.name)
  {
    var base :| StartsFrom(reg, sets, mats, targets, named, o.name, base)
             && Targets(reg, sets, mats, ops, keys, o.name, base, keys[o.name]);
    forall k ensures Demanded(reg, sets, ops, keys, o.name, k) <==> Demanded(reg, sets, ops, keys', o.name, k) {
      DemandSettled(reg, sets, ops, keys, keys', o, k);
      DemandSettled(reg, sets, ops, keys', keys, o, k);
    }
    assert Targets(reg, sets, mats, ops, keys', o.name, base, keys'[o.name]);
  }

  method TargetOp(reg: Registry, sets: Sets, mats: Mats, stale: map<Name, Staleness>, ops: seq<Name>,
                  targets: seq<Name>, named: map<Name, seq<Key>>, keys: map<Name, seq<Key>>, o: OpMeta)
    returns (want: seq<Key>, ghost base: seq<Key>)
    requires reg.Valid() && SetsFor(reg, sets) && Verdicted(reg, sets, mats, stale) && o in reg.ops
    requires o.partitions.Some?
    ensures o.name in reg.byName && o.name in sets
    ensures StartsFrom(reg, sets, mats, targets, named, o.name, base)
    ensures Targets(reg, sets, mats, ops, keys, o.name, base, want)
  {
    PartitionedOpAsset(reg, sets, o);
    var from := Base(reg, sets, mats, stale, targets, named, o.name);
    base := from;
    var demanded := AddDemand(reg, sets, mats, ops, keys, o.name, stale[o.name], from);
    want := KeepBuildable(sets, o.deps, o.maps, demanded);
  }

  /** Which keys each partitioned op in the plan builds, consumers before producers. */
  method KeyTargets(reg: Registry, sets: Sets, mats: Mats, stale: map<Name, Staleness>, ops: seq<Name>,
                    targets: seq<Name>, named: map<Name, seq<Key>>)
    returns (keys: map<Name, seq<Key>>)
    requires reg.Valid() && SetsFor(reg, sets) && Verdicted(reg, sets, mats, stale)
    ensures KeyTargetsFrom(reg, sets, mats, ops, targets, named, keys, 0)
  {
    keys := map[];
    var i := |reg.ops|;
    while i > 0
      invariant 0 <= i <= |reg.ops|
      invariant KeyTargetsFrom(reg, sets, mats, ops, targets, named, keys, i)
    {
      i := i - 1;
      if reg.ops[i].partitions.Some? && reg.ops[i].name in ops {
        var want; ghost var base;
        want, base := TargetOp(reg, sets, mats, stale, ops, targets, named, keys, reg.ops[i]);
        OneMoreTarget(reg, sets, mats, ops, targets, named, keys, keys[reg.ops[i].name := want], i, base, want);
        keys := keys[reg.ops[i].name := want];
      } else {
        NoTarget(reg, sets, mats, ops, targets, named, keys, i);
      }
    }
  }

  lemma RankNotThis(reg: Registry, ops: seq<Name>, o: OpMeta, i: nat)
    requires reg.OpsIndexed() && i < |reg.ops| && PartitionedOp(reg, o, ops) && reg.byOp[o.name] >= i
    requires !PartitionedOp(reg, reg.ops[i], ops)
    ensures reg.byOp[o.name] >= i + 1
  {
    assert reg.ops[reg.byOp[o.name]] == o;
  }

  lemma NoTarget(reg: Registry, sets: Sets, mats: Mats, ops: seq<Name>, targets: seq<Name>, named: map<Name, seq<Key>>,
                 keys: map<Name, seq<Key>>, i: nat)
    requires reg.Valid() && SetsFor(reg, sets) && i < |reg.ops| && !PartitionedOp(reg, reg.ops[i], ops)
    requires KeyTargetsFrom(reg, sets, mats, ops, targets, named, keys, i + 1)
    ensures KeyTargetsFrom(reg, sets, mats, ops, targets, named, keys, i)
  {
    forall o | PartitionedOp(reg, o, ops) && reg.byOp[o.name] >= i
      ensures o.name in keys
      ensures (PartitionedOpAsset(reg, sets, o); TargetsOf(reg, sets, mats, ops, targets, named, keys, o.name))
    {
      RankNotThis(reg, ops, o, i);
    }
    forall a | a in keys ensures exists o :: PartitionedOp(reg, o, ops) && o.name == a && reg.byOp[a] >= i {
      var o :| PartitionedOp(reg, o, ops) && o.name == a && reg.byOp[a] >= i + 1;
    }
  }

  lemma NewTarget(reg: Registry, sets: Sets, mats: Mats, ops: seq<Name>, targets: seq<Name>, named: map<Name, seq<Key>>,
                  before: map<Name, seq<Key>>, keys: map<Name, seq<Key>>, o: OpMeta, base: seq<Key>, want: seq<Key>)
    requires reg.Valid() && SetsFor(reg, sets) && PartitionedOp(reg, o, ops)
    requires keys == before[o.name := want] && o.name in reg.byName && o.name in sets
    requires StartsFrom(reg, sets, mats, targets, named, o.name, base)
    requires Targets(reg, sets, mats, ops, before, o.name, base, want)
    ensures TargetsOf(reg, sets, mats, ops, targets, named, keys, o.name)
  {
    forall k ensures Demanded(reg, sets, ops, before, o.name, k) <==> Demanded(reg, sets, ops, keys, o.name, k) {
      DemandSettled(reg, sets, ops, before, keys, o, k);
      DemandSettled(reg, sets, ops, keys, before, o, k);
    }
    assert Targets(reg, sets, mats, ops, keys, o.name, base, keys[o.name]);
  }

  lemma ReadingUnchanged(keys: map<Name, seq<Key>>, name: Name, want: seq<Key>, c: OpMeta)
    requires c.name != name
    ensures Reading(keys, c) == Reading(keys[name := want], c)
  {
  }

  lemma OneMoreTarget(reg: Registry, sets: Sets, mats: Mats, ops: seq<Name>, targets: seq<Name>,
                      named: map<Name, seq<Key>>,
                      before: map<Name, seq<Key>>, keys: map<Name, seq<Key>>, i: nat, base: seq<Key>, want: seq<Key>)
    requires reg.Valid() && SetsFor(reg, sets) && i < |reg.ops| && PartitionedOp(reg, reg.ops[i], ops)
    requires KeyTargetsFrom(reg, sets, mats, ops, targets, named, before, i + 1)
    requires keys == before[reg.ops[i].name := want]
    requires reg.ops[i].name in reg.byName && reg.ops[i].name in sets
    requires StartsFrom(reg, sets, mats, targets, named, reg.ops[i].name, base)
    requires Targets(reg, sets, mats, ops, before, reg.ops[i].name, base, want)
    ensures KeyTargetsFrom(reg, sets, mats, ops, targets, named, keys, i)
  {
    MoreKeys(reg, ops, before, keys, i, want);
    forall p | PartitionedOp(reg, p, ops) && reg.byOp[p.name] >= i
      ensures p.name in keys
      ensures (PartitionedOpAsset(reg, sets, p); TargetsOf(reg, sets, mats, ops, targets, named, keys, p.name))
    {
      PartitionedOpAsset(reg, sets, p);
      if p.name != reg.ops[i].name {
        OldTarget(reg, sets, mats, ops, targets, named, before, keys, i, want, p);
      } else {
        NewTarget(reg, sets, mats, ops, targets, named, before, keys, reg.ops[i], base, want);
      }
    }
  }

  lemma MoreKeys(reg: Registry, ops: seq<Name>, before: map<Name, seq<Key>>, keys: map<Name, seq<Key>>, i: nat,
                 want: seq<Key>)
    requires reg.OpsIndexed() && i < |reg.ops| && PartitionedOp(reg, reg.ops[i], ops)
    requires KeysOnlyFor(reg, ops, before, i + 1) && keys == before[reg.ops[i].name := want]
    ensures KeysOnlyFor(reg, ops, keys, i)
  {
    forall a | a in keys ensures exists p :: PartitionedOp(reg, p, ops) && p.name == a && reg.byOp[a] >= i {
      if a == reg.ops[i].name {
        assert PartitionedOp(reg, reg.ops[i], ops) && reg.byOp[a] == i;
      } else {
        var p :| PartitionedOp(reg, p, ops) && p.name == a && reg.byOp[a] >= i + 1;
      }
    }
  }

  lemma OldTarget(reg: Registry, sets: Sets, mats: Mats, ops: seq<Name>, targets: seq<Name>, named: map<Name, seq<Key>>,
                  before: map<Name, seq<Key>>, keys: map<Name, seq<Key>>, i: nat, want: seq<Key>, p: OpMeta)
    requires reg.Valid() && SetsFor(reg, sets) && i < |reg.ops|
    requires KeyTargetsFrom(reg, sets, mats, ops, targets, named, before, i + 1)
    requires keys == before[reg.ops[i].name := want]
    requires PartitionedOp(reg, p, ops) && reg.byOp[p.name] >= i && p.name != reg.ops[i].name
    requires p.name in reg.byName && p.name in sets
    ensures p.name in keys && TargetsOf(reg, sets, mats, ops, targets, named, keys, p.name)
  {
    assert reg.byOp[p.name] >= i + 1;
    forall c | c in reg.ops && reg.byOp[c.name] > reg.byOp[p.name] ensures Reading(before, c) == Reading(keys, c) {
      ReadingUnchanged(before, reg.ops[i].name, want, c);
    }
    TargetsSettled(reg, sets, mats, ops, targets, named, before, keys, p);
  }

  // ----------------------------------------------------------- planned ops

  ghost predicate Asks(reg: Registry, sets: Sets, mats: Mats, want: set<Name>, targets: seq<Name>, a: Name)
    requires reg.Valid()
  {
    a in reg.byName && a in want && (a in targets || !AssetFresh(reg, sets, mats, a))
  }

  /** An op runs when something it makes is wanted and is a target or stale. */
  ghost predicate PlannedOp(reg: Registry, sets: Sets, mats: Mats, want: set<Name>, targets: seq<Name>, o: OpMeta)
    requires reg.Valid()
  {
    exists a :: a in o.produces && Asks(reg, sets, mats, want, targets, a)
  }

  // The ops picked so far, each once, in the registry's order.
  ghost predicate Picks(reg: Registry, ops: seq<Name>, picked: seq<bool>)
    requires reg.OpsIndexed() && |picked| <= |reg.ops|
  {
    && (forall x :: x in ops ==> x in reg.byOp && reg.byOp[x] < |picked|)
    && (forall i, j :: 0 <= i < j < |ops| ==> reg.byOp[ops[i]] < reg.byOp[ops[j]])
    && forall k :: 0 <= k < |picked| ==> (reg.ops[k].name in ops <==> picked[k])
  }

  /** The planned ops, each once, in the registry's dependency order. */
  ghost predicate PlannedOps(reg: Registry, sets: Sets, mats: Mats, want: set<Name>, targets: seq<Name>, ops: seq<Name>)
    requires reg.Valid()
  {
    && (forall n :: n in ops ==> n in reg.byOp)
    && (forall i, j :: 0 <= i < j < |ops| ==> reg.byOp[ops[i]] < reg.byOp[ops[j]])
    && forall o :: o in reg.ops ==> (o.name in ops <==> PlannedOp(reg, sets, mats, want, targets, o))
  }

  method IsAsked(reg: Registry, sets: Sets, mats: Mats, stale: map<Name, Staleness>, want: set<Name>,
                 targets: seq<Name>, a: Name)
    returns (asked: bool)
    requires reg.Valid() && Verdicted(reg, sets, mats, stale) && a in reg.byName
    ensures asked <==> Asks(reg, sets, mats, want, targets, a)
  {
    VerdictIsFresh(reg, sets, mats, a, stale[a]);
    asked := a in want && (a in targets || stale[a].stale);
  }

  method IsPlanned(reg: Registry, sets: Sets, mats: Mats, stale: map<Name, Staleness>, want: set<Name>,
                   targets: seq<Name>, o: OpMeta)
    returns (planned: bool)
    requires reg.Valid() && Verdicted(reg, sets, mats, stale) && forall a :: a in o.produces ==> a in reg.byName
    ensures planned <==> PlannedOp(reg, sets, mats, want, targets, o)
  {
    for i := 0 to |o.produces|
      invariant forall k :: 0 <= k < i ==> !Asks(reg, sets, mats, want, targets, o.produces[k])
    {
      assert o.produces[i] in o.produces;
      var asked := IsAsked(reg, sets, mats, stale, want, targets, o.produces[i]);
      if asked {
        return true;
      }
    }
    return false;
  }

  lemma ProducesRegistered(reg: Registry, i: nat)
    requires reg.Valid() && i < |reg.ops|
    ensures forall a :: a in reg.ops[i].produces ==> a in reg.byName
  {
    assert reg.ValidOp(reg.ops[i]);
  }

  lemma PickOneMore(reg: Registry, ops: seq<Name>, picked: seq<bool>, planned: bool)
    requires reg.OpsIndexed() && |picked| < |reg.ops| && Picks(reg, ops, picked)
    ensures Picks(reg, if planned then ops + [reg.ops[|picked|].name] else ops, picked + [planned])
  {
    var i := |picked|;
    var after := if planned then ops + [reg.ops[i].name] else ops;
    forall k | 0 <= k < i + 1 ensures reg.ops[k].name in after <==> (picked + [planned])[k] {
      assert reg.byOp[reg.ops[k].name] == k;
      assert reg.ops[k].name in after <==> reg.ops[k].name in ops || (planned && k == i);
    }
  }

  method SelectOps(reg: Registry, sets: Sets, mats: Mats, stale: map<Name, Staleness>, want: set<Name>,
                   targets: seq<Name>)
    returns (ops: seq<Name>)
    requires reg.Valid() && Verdicted(reg, sets, mats, stale)
    ensures PlannedOps(reg, sets, mats, want, targets, ops)
  {
    ops := [];
    ghost var picked: seq<bool> := [];
    for i := 0 to |reg.ops|
      invariant |picked| == i && PickedSoFar(reg, sets, mats, want, targets, ops, picked)
    {
      var planned := IsPlannedAt(reg, sets, mats, stale, want, targets, i);
      PickedOneMore(reg, sets, mats, want, targets, ops, picked, planned);
      picked := picked + [planned];
      ops := if planned then ops + [reg.ops[i].name] else ops;
    }
    AllPicked(reg, sets, mats, want, targets, ops, picked);
  }

  method IsPlannedAt(reg: Registry, sets: Sets, mats: Mats, stale: map<Name, Staleness>, want: set<Name>,
                     targets: seq<Name>, i: nat)
    returns (planned: bool)
    requires reg.Valid() && Verdicted(reg, sets, mats, stale) && i < |reg.ops|
    ensures planned <==> PlannedOp(reg, sets, mats, want, targets, reg.ops[i])
  {
    ProducesRegistered(reg, i);
    planned := IsPlanned(reg, sets, mats, stale, want, targets, reg.ops[i]);
  }

  ghost predicate PickedSoFar(reg: Registry, sets: Sets, mats: Mats, want: set<Name>, targets: seq<Name>,
                              ops: seq<Name>, picked: seq<bool>)
    requires reg.Valid() && |picked| <= |reg.ops|
  {
    Picks(reg, ops, picked) && PickedArePlanned(reg, sets, mats, want, targets, picked)
  }

  lemma PickedOneMore(reg: Registry, sets: Sets, mats: Mats, want: set<Name>, targets: seq<Name>, ops: seq<Name>,
                      picked: seq<bool>, planned: bool)
    requires reg.Valid() && |picked| < |reg.ops| && PickedSoFar(reg, sets, mats, want, targets, ops, picked)
    requires planned <==> PlannedOp(reg, sets, mats, want, targets, reg.ops[|picked|])
    ensures PickedSoFar(reg, sets, mats, want, targets, if planned then ops + [reg.ops[|picked|].name] else ops,
                        picked + [planned])
  {
    PickOneMore(reg, ops, picked, planned);
  }

  ghost predicate PickedArePlanned(reg: Registry, sets: Sets, mats: Mats, want: set<Name>, targets: seq<Name>,
                                   picked: seq<bool>)
    requires reg.Valid() && |picked| <= |reg.ops|
  {
    forall k :: 0 <= k < |picked| ==> (picked[k] <==> PlannedOp(reg, sets, mats, want, targets, reg.ops[k]))
  }

  lemma AllPicked(reg: Registry, sets: Sets, mats: Mats, want: set<Name>, targets: seq<Name>, ops: seq<Name>,
                  picked: seq<bool>)
    requires reg.Valid() && |picked| == |reg.ops| && PickedSoFar(reg, sets, mats, want, targets, ops, picked)
    ensures PlannedOps(reg, sets, mats, want, targets, ops)
  {
    forall o | o in reg.ops ensures o.name in ops <==> PlannedOp(reg, sets, mats, want, targets, o) {
      var k :| 0 <= k < |reg.ops| && reg.ops[k] == o;
      assert picked[k] <==> PlannedOp(reg, sets, mats, want, targets, reg.ops[k]);
    }
  }

  // ----------------------------------------------------------- seeds

  /** What an unplanned producer is seeded with: a source and a partitioned asset null, else what it holds. */
  function SeedValue(reg: Registry, mats: Mats, op: Name): Value
    requires reg.OpsIndexed()
  {
    if op !in reg.byOp then Null
    else
      var o := reg.Op(op);
      if o.partitions.Some? then Null
      else if |o.produces| == 1 then StoredValue(mats, o.produces[0])
      else Object(map a | a in o.produces :: StoredValue(mats, a))
  }

  function StoredValue(mats: Mats, a: Name): Value {
    if Cell(a, None) in mats then mats[Cell(a, None)].value else Null
  }

  /** Spelled out: null but for an unpartitioned op, and then its one asset's value or an object with each of them. */
  lemma SeedSays(reg: Registry, mats: Mats, op: Name)
    requires reg.OpsIndexed()
    ensures op !in reg.byOp || reg.Op(op).partitions.Some? ==> SeedValue(reg, mats, op) == Null
    ensures op in reg.byOp && reg.Op(op).partitions.None? ==>
              var made, v := reg.Op(op).produces, SeedValue(reg, mats, op);
              if |made| == 1 then v == if Cell(made[0], None) in mats then mats[Cell(made[0], None)].value else Null
              else v.Object? && (forall a :: a in v.fields <==> a in made)
                   && forall a :: a in made ==>
                        v.fields[a] == if Cell(a, None) in mats then mats[Cell(a, None)].value else Null
  {
  }

  // The producers of what the planned ops before `n` read.
  ghost predicate ReadByPlan(reg: Registry, ops: seq<Name>, n: nat, producer: Name)
    requires reg.NamesIndexed() && reg.OpsIndexed() && n <= |ops| && forall x :: x in ops ==> x in reg.byOp
  {
    exists i, dep :: 0 <= i < n && dep in reg.Op(ops[i]).deps && producer == reg.Producer(dep)
  }

  ghost predicate SeedsFrom(reg: Registry, mats: Mats, ops: seq<Name>, keys: map<Name, seq<Key>>,
                            seeds: map<Seed, Seeded>, n: nat)
    requires reg.NamesIndexed() && reg.OpsIndexed() && n <= |ops| && forall x :: x in ops ==> x in reg.byOp
  {
    && (forall p :: ValueOf(p) in seeds <==> p !in ops && ReadByPlan(reg, ops, n, p))
    && (forall p :: ValueOf(p) in seeds ==> seeds[ValueOf(p)] == Stored(SeedValue(reg, mats, p)))
    && (forall o :: KeysOf(o) in seeds <==> o in ops[..n] && o in reg.byOp && reg.Op(o).partitions.Some?)
    && forall o :: KeysOf(o) in seeds ==> seeds[KeysOf(o)] == Keys(if o in keys then keys[o] else [])
  }

  method SeedDeps(reg: Registry, mats: Mats, ops: seq<Name>, deps: seq<Name>,
                  seeds0: map<Seed, Seeded>) returns (seeds: map<Seed, Seeded>)
    requires reg.NamesIndexed() && reg.OpsIndexed()
    requires forall p :: ValueOf(p) in seeds0 ==> seeds0[ValueOf(p)] == Stored(SeedValue(reg, mats, p))
    ensures forall o :: KeysOf(o) in seeds <==> KeysOf(o) in seeds0
    ensures forall o :: KeysOf(o) in seeds ==> seeds[KeysOf(o)] == seeds0[KeysOf(o)]
    ensures forall p :: ValueOf(p) in seeds <==>
              ValueOf(p) in seeds0 || (p !in ops && exists dep :: dep in deps && p == reg.Producer(dep))
    ensures forall p :: ValueOf(p) in seeds ==> seeds[ValueOf(p)] == Stored(SeedValue(reg, mats, p))
  {
    seeds := seeds0;
    for t := 0 to |deps|
      invariant forall o :: KeysOf(o) in seeds <==> KeysOf(o) in seeds0
      invariant forall o :: KeysOf(o) in seeds ==> seeds[KeysOf(o)] == seeds0[KeysOf(o)]
      invariant forall p :: ValueOf(p) in seeds <==>
                  ValueOf(p) in seeds0 || (p !in ops && exists k :: 0 <= k < t && p == reg.Producer(deps[k]))
      invariant forall p :: ValueOf(p) in seeds ==> seeds[ValueOf(p)] == Stored(SeedValue(reg, mats, p))
    {
      var producer := reg.Producer(deps[t]);
      if producer !in ops && ValueOf(producer) !in seeds {
        seeds := seeds[ValueOf(producer) := Stored(SeedValue(reg, mats, producer))];
      }
    }
  }

  /** Every planned op's deps are in the plan or in the seeds, and never both. */
  method SeedsFor(reg: Registry, mats: Mats, ops: seq<Name>,
                  keys: map<Name, seq<Key>>) returns (seeds: map<Seed, Seeded>)
    requires reg.NamesIndexed() && reg.OpsIndexed() && forall x :: x in ops ==> x in reg.byOp
    ensures SeedsFrom(reg, mats, ops, keys, seeds, |ops|)
  {
    seeds := map[];
    for i := 0 to |ops|
      invariant SeedsFrom(reg, mats, ops, keys, seeds, i)
    {
      var o := reg.Op(ops[i]);
      ghost var before := seeds;
      if o.partitions.Some? {
        seeds := seeds[KeysOf(ops[i]) := Keys(if ops[i] in keys then keys[ops[i]] else [])];
      }
      seeds := SeedDeps(reg, mats, ops, o.deps, seeds);
      SeededOneMore(reg, mats, ops, keys, before, seeds, i);
    }
  }

  lemma SeededOneMore(reg: Registry, mats: Mats, ops: seq<Name>, keys: map<Name, seq<Key>>,
                      before: map<Seed, Seeded>, seeds: map<Seed, Seeded>, i: nat)
    requires reg.NamesIndexed() && reg.OpsIndexed() && i < |ops| && forall x :: x in ops ==> x in reg.byOp
    requires SeedsFrom(reg, mats, ops, keys, before, i)
    requires forall o :: KeysOf(o) in seeds <==>
               KeysOf(o) in before || (o == ops[i] && reg.Op(ops[i]).partitions.Some?)
    requires forall o :: KeysOf(o) in seeds ==> seeds[KeysOf(o)] == Keys(if o in keys then keys[o] else [])
    requires forall p :: ValueOf(p) in seeds <==>
               ValueOf(p) in before || (p !in ops && exists dep :: dep in reg.Op(ops[i]).deps && p == reg.Producer(dep))
    requires forall p :: ValueOf(p) in seeds ==> seeds[ValueOf(p)] == Stored(SeedValue(reg, mats, p))
    ensures SeedsFrom(reg, mats, ops, keys, seeds, i + 1)
  {
    assert ops[..i + 1] == ops[..i] + [ops[i]];
    forall p ensures ReadByPlan(reg, ops, i + 1, p) <==>
        ReadByPlan(reg, ops, i, p) || exists dep :: dep in reg.Op(ops[i]).deps && p == reg.Producer(dep) {
    }
  }

  // ----------------------------------------------------------- plans

  /** Everything the planner promises about a plan, over the targets and names it was given. */
  ghost predicate Plans(reg: Registry, sets: Sets, mats: Mats, want: set<Name>, targets: seq<Name>,
                        named: map<Name, seq<Key>>, plan: BuildPlan)
    requires reg.Valid() && SetsFor(reg, sets)
  {
    && PlannedOps(reg, sets, mats, want, targets, plan.ops)
    && exists keys :: KeyTargetsFrom(reg, sets, mats, plan.ops, targets, named, keys, 0)
                      && SeedsFrom(reg, mats, plan.ops, keys, plan.seeds, |plan.ops|)
  }

  method MakePlan(reg: Registry, sets: Sets, mats: Mats, stale: map<Name, Staleness>, want: set<Name>,
                  targets: seq<Name>, named: map<Name, seq<Key>>)
    returns (plan: BuildPlan)
    requires reg.Valid() && SetsFor(reg, sets) && Verdicted(reg, sets, mats, stale)
    ensures Plans(reg, sets, mats, want, targets, named, plan)
  {
    var ops := SelectOps(reg, sets, mats, stale, want, targets);
    var keys := KeyTargets(reg, sets, mats, stale, ops, targets, named);
    var seeds := SeedsFor(reg, mats, ops, keys);
    plan := BuildPlan(ops, seeds);
  }

  ghost predicate TargetsOk(reg: Registry, targets: seq<Name>)
    requires reg.NamesIndexed()
  {
    forall t :: t in targets ==> t in reg.byName && !reg.Meta(t).source
  }

  ghost predicate NamedOk(reg: Registry, sets: Sets, named: map<Name, seq<Key>>)
    requires reg.NamesIndexed()
  {
    forall a :: a in named ==> a in reg.byName && a in sets && forall k :: k in named[a] ==> k in sets[a]
  }

  ghost predicate RefusedFor(reg: Registry, t: Name, error: PlanError)
    requires reg.NamesIndexed()
  {
    if t !in reg.byName then error == UnknownAsset(t) else reg.Meta(t).source && error == SourceTarget(t)
  }

  /** Why keys named of an asset are refused: it is unknown, it has none, or one of them is not its own. */
  ghost predicate NameRefused(reg: Registry, sets: Sets, a: Name, keys: seq<Key>, error: PlanError)
    requires reg.NamesIndexed()
  {
    if a !in reg.byName then error == UnknownAsset(a)
    else if reg.Meta(a).partitions.None? then error == NotPartitioned(a)
    else a in sets && exists k :: k in keys && k !in sets[a] && error == NoSuchPartition(a, k)
  }

  method CheckTargets(reg: Registry, targets: seq<Name>) returns (r: Result<(), PlanError>)
    requires reg.NamesIndexed()
    ensures r.Ok? <==> TargetsOk(reg, targets)
    ensures r.Err? ==> exists t :: t in targets && RefusedFor(reg, t, r.error)
    ensures r.Err? ==> exists i :: 0 <= i < |targets| && RefusedFor(reg, targets[i], r.error)
                                   && TargetsOk(reg, targets[..i])
  {
    for i := 0 to |targets|
      invariant forall k :: 0 <= k < i ==> targets[k] in reg.byName && !reg.Meta(targets[k]).source
    {
      assert targets[i] in targets;
      if targets[i] !in reg.byName {
        return Err(UnknownAsset(targets[i]));
      }
      if reg.Meta(targets[i]).source {
        return Err(SourceTarget(targets[i]));
      }
    }
    return Ok(());
  }

  method CheckKeys(sets: Sets, a: Name, keys: seq<Key>) returns (r: Result<(), PlanError>)
    requires a in sets
    ensures r.Ok? <==> forall k :: k in keys ==> k in sets[a]
    ensures r.Err? ==> exists k :: k in keys && k !in sets[a] && r.error == NoSuchPartition(a, k)
  {
    for t := 0 to |keys|
      invariant forall j :: 0 <= j < t ==> keys[j] in sets[a]
    {
      assert keys[t] in keys;
      if keys[t] !in sets[a] {
        return Err(NoSuchPartition(a, keys[t]));
      }
    }
    return Ok(());
  }

  method CheckNamed(reg: Registry, sets: Sets, named: map<Name, seq<Key>>) returns (r: Result<(), PlanError>)
    requires reg.NamesIndexed() && SetsFor(reg, sets)
    ensures r.Ok? <==> NamedOk(reg, sets, named)
    ensures r.Err? ==> exists a :: a in named && NameRefused(reg, sets, a, named[a], r.error)
  {
    var rest := named.Keys;
    while rest != {}
      invariant rest <= named.Keys
      invariant forall a :: a in named && a !in rest ==>
                  a in reg.byName && a in sets && forall k :: k in named[a] ==> k in sets[a]
    {
      var a :| a in rest;
      if a !in reg.byName {
        return Err(UnknownAsset(a));
      }
      if reg.Meta(a).partitions.None? {
        return Err(NotPartitioned(a));
      }
      var checked := CheckKeys(sets, a, named[a]);
      if checked.Err? {
        return Err(checked.error);
      }
      rest := rest - {a};
    }
    return Ok(());
  }

  /**
   * One plan for several targets. It exists exactly when every target is a
   * known derived asset and every key named is one its asset has.
   */
  method PlanPartitions(reg: Registry, sets: Sets, mats: Mats, targets: seq<Name>, named: map<Name, seq<Key>>)
    returns (r: Result<BuildPlan, PlanError>, ghost want: set<Name>)
    requires reg.Valid() && SetsFor(reg, sets)
    ensures r.Ok? <==> TargetsOk(reg, targets) && NamedOk(reg, sets, named)
    ensures r.Ok? ==> (forall n :: n in want <==> Wanted(reg, targets, n)) && ClosedUp(reg, want, [])
    ensures r.Ok? ==> Plans(reg, sets, mats, want, targets, named, r.value)
    ensures r.Err? && !TargetsOk(reg, targets) ==>
              exists i :: 0 <= i < |targets| && RefusedFor(reg, targets[i], r.error) && TargetsOk(reg, targets[..i])
    ensures r.Err? && TargetsOk(reg, targets) ==>
              exists a :: a in named && NameRefused(reg, sets, a, named[a], r.error)
  {
    want := {};
    var known := CheckTargets(reg, targets);
    if known.Err? {
      return Err(known.error), want;
    }
    var held := CheckNamed(reg, sets, named);
    if held.Err? {
      return Err(held.error), want;
    }
    var wanted := Want(reg, targets);
    want := wanted;
    var stale := AllStaleness(reg, sets, mats);
    var plan := MakePlan(reg, sets, mats, stale, wanted, targets, named);
    return Ok(plan), want;
  }

  /** The targets of a build of everything: exactly the derived assets that are stale. */
  ghost predicate AllStale(reg: Registry, sets: Sets, mats: Mats, targets: seq<Name>)
    requires reg.Valid()
  {
    forall a :: a in targets <==> a in reg.byName && !reg.IsSource(a) && !AssetFresh(reg, sets, mats, a)
  }

  method StaleAssets(reg: Registry, sets: Sets, mats: Mats, stale: map<Name, Staleness>) returns (targets: seq<Name>)
    requires reg.Valid() && Verdicted(reg, sets, mats, stale)
    ensures AllStale(reg, sets, mats, targets)
  {
    targets := [];
    for i := 0 to |reg.metas|
      invariant forall a :: a in targets <==>
                  a in reg.byName && reg.byName[a] < i && !reg.IsSource(a) && !AssetFresh(reg, sets, mats, a)
    {
      var a := reg.metas[i].name;
      VerdictIsFresh(reg, sets, mats, a, stale[a]);
      if !reg.metas[i].source && stale[a].stale {
        targets := targets + [a];
      }
    }
  }

  lemma SomethingToBuild(reg: Registry, sets: Sets, mats: Mats, targets: seq<Name>, plan: BuildPlan)
    requires reg.Valid() && SetsFor(reg, sets)
    requires AllStale(reg, sets, mats, targets)
    requires PlannedOps(reg, sets, mats, reg.byName.Keys, targets, plan.ops)
    ensures plan.ops == [] <==> targets == []
  {
    if targets != [] {
      var a := targets[0];
      assert a in targets;
      ProducerMakes(reg, a);
      assert Asks(reg, sets, mats, reg.byName.Keys, targets, a);
      assert PlannedOp(reg, sets, mats, reg.byName.Keys, targets, reg.OpFor(a));
    }
    if plan.ops != [] {
      var o := reg.Op(plan.ops[0]);
      assert o.name == plan.ops[0] && o.name in plan.ops;
      var a :| a in o.produces && Asks(reg, sets, mats, reg.byName.Keys, targets, a);
      assert reg.ValidOp(o) && Makes(o, reg.Meta(a));
      assert a in targets;
    }
  }

  /** One plan over every stale derived asset, and none exactly when nothing derived is stale. */
  method PlanAll(reg: Registry, sets: Sets, mats: Mats) returns (r: Option<BuildPlan>)
    requires reg.Valid() && SetsFor(reg, sets)
    ensures r.None? <==> forall a :: a in reg.byName && !reg.IsSource(a) ==> AssetFresh(reg, sets, mats, a)
    ensures r.Some? ==> exists targets :: AllStale(reg, sets, mats, targets)
                                          && Plans(reg, sets, mats, reg.byName.Keys, targets, map[], r.value)
  {
    var stale := AllStaleness(reg, sets, mats);
    var owed := StaleAssets(reg, sets, mats, stale);
    var plan := MakePlan(reg, sets, mats, stale, reg.byName.Keys, owed, map[]);
    SomethingToBuild(reg, sets, mats, owed, plan);
    if plan.ops == [] {
      return None;
    }
    assert owed[0] in owed;
    return Some(plan);
  }

  // ----------------------------------------------------------- claims

  /** The cells running a plan writes: every asset of every planned op, at each key it fans out over. */
  ghost predicate PlanCell(reg: Registry, plan: BuildPlan, c: Cell)
    requires reg.OpsIndexed()
  {
    exists op :: op in plan.ops && op in reg.byOp && OpCell(reg, plan, op, c)
  }

  function FanOut(plan: BuildPlan, op: Name): seq<Key> {
    if KeysOf(op) in plan.seeds && plan.seeds[KeysOf(op)].Keys? then plan.seeds[KeysOf(op)].keys else []
  }

  ghost predicate OpCell(reg: Registry, plan: BuildPlan, op: Name, c: Cell)
    requires reg.OpsIndexed() && op in reg.byOp
  {
    && c.asset in reg.Op(op).produces
    && if reg.Op(op).partitions.Some? then c.key.Some? && c.key.value in FanOut(plan, op) else c.key.None?
  }

  method ClaimOp(reg: Registry, plan: BuildPlan, op: Name, claims0: seq<Cell>) returns (claims: seq<Cell>)
    requires reg.OpsIndexed() && op in reg.byOp
    ensures forall c :: c in claims <==> c in claims0 || OpCell(reg, plan, op, c)
  {
    claims := claims0;
    var o := reg.Op(op);
    var keys := FanOut(plan, op);
    for i := 0 to |o.produces|
      invariant forall c :: c in claims <==> c in claims0 || (c.asset in o.produces[..i] && OpCell(reg, plan, op, c))
    {
      var a := o.produces[i];
      assert o.produces[..i + 1] == o.produces[..i] + [a];
      if o.partitions.None? {
        claims := claims + [Cell(a, None)];
      } else {
        ghost var before := claims;
        for t := 0 to |keys|
          invariant forall c :: c in claims <==>
                      c in before || (c.asset == a && c.key.Some? && c.key.value in keys[..t])
        {
          assert keys[..t + 1] == keys[..t] + [keys[t]];
          claims := claims + [Cell(a, Some(keys[t]))];
        }
        assert keys[..|keys|] == keys;
      }
    }
    assert o.produces[..|o.produces|] == o.produces;
  }

  /** The claim is exactly what the run will build. */
  method ClaimedBy(reg: Registry, plan: BuildPlan) returns (claims: seq<Cell>)
    requires reg.OpsIndexed()
    ensures forall c :: c in claims <==> PlanCell(reg, plan, c)
  {
    claims := [];
    for i := 0 to |plan.ops|
      invariant forall c :: c in claims <==>
                  exists k :: 0 <= k < i && plan.ops[k] in reg.byOp && OpCell(reg, plan, plan.ops[k], c)
    {
      if plan.ops[i] in reg.byOp {
        claims := ClaimOp(reg, plan, plan.ops[i], claims);
      }
    }
  }
}
