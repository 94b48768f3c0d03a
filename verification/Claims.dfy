/**
 * Concurrent builds (src/asset.rs, src/store.rs): a run is launched unless what
 * it says it will build meets what an active run says, and what is written and
 * recorded while runs overlap in time.
 */
module Claims {
  import opened Prelude
  import opened Assets
  import opened Freshness
  import opened Builds
  import opened Plan
  import opened Memo
  import opened MemoRuns

  /** What a run says it will build; a full launch, a resume and a replay say nothing. */
  type Claim = Option<seq<Cell>>

  datatype Run = Run(id: string, claim: Claim, active: bool)

  datatype Met = MetAt(cell: Cell) | MetSilent

  datatype Landed = Landed | Overlaps(met: Met, run: string)

  /** Two claims meet unless both are listed and share no cell. */
  predicate Meets(mine: Claim, theirs: Claim) {
    mine.None? || theirs.None? || exists c :: c in mine.value && c in theirs.value
  }

  method FirstMet(mine: Claim, theirs: Claim) returns (r: Option<Met>)
    ensures r.Some? <==> Meets(mine, theirs)
    ensures r.None? <==> mine.Some? && theirs.Some? && forall c :: c in mine.value ==> c !in theirs.value
    ensures r.Some? && r.value.MetAt? ==>
              mine.Some? && theirs.Some? && r.value.cell in mine.value && r.value.cell in theirs.value
    ensures r.Some? && r.value.MetSilent? <==> mine.None? || theirs.None?
  {
    if mine.None? || theirs.None? {
      return Some(MetSilent);
    }
    for i := 0 to |mine.value|
      invariant forall k :: 0 <= k < i ==> mine.value[k] !in theirs.value
    {
      if mine.value[i] in theirs.value {
        return Some(MetAt(mine.value[i]));
      }
    }
    return None;
  }

  // A launch that lists what it builds is refused by any active run it meets; one
  // that lists nothing is checked against nothing.
  predicate Admitted(runs: seq<Run>, claim: Claim) {
    claim.Some? ==> forall i :: 0 <= i < |runs| && runs[i].active ==> !Meets(claim, runs[i].claim)
  }

  predicate MetBy(runs: seq<Run>, claim: Claim, id: string) {
    exists i :: 0 <= i < |runs| && runs[i].active && runs[i].id == id && Meets(claim, runs[i].claim)
  }

  function Ended(run: Run, id: string): Run {
    if run.id == id then run.(active := false) else run
  }

  function EndedIn(runs: seq<Run>, id: string): (r: seq<Run>)
    ensures |r| == |runs| && forall i :: 0 <= i < |runs| ==> r[i] == Ended(runs[i], id)
  {
    seq(|runs|, i requires 0 <= i < |runs| => Ended(runs[i], id))
  }

  /** The runs table: an active row is itself the claim it holds. */
  class RunTable {
    var runs: seq<Run>

    constructor ()
      ensures runs == []
    {
      runs := [];
    }

    /** One transaction: refuse, naming what it met, or join the runs. */
    method Create(id: string, claim: Claim) returns (landed: Landed)
      modifies this
      ensures landed.Landed? <==> Admitted(old(runs), claim)
      ensures landed.Landed? <==>
              claim.None? || forall run :: run in old(runs) && run.active ==>
                run.claim.Some? && forall c :: c in claim.value ==> c !in run.claim.value
      ensures landed.Overlaps? ==>
                exists run :: run in old(runs) && run.active && run.id == landed.run && claim.Some?
                              && if landed.met.MetAt? then run.claim.Some? && landed.met.cell in run.claim.value
                                 else run.claim.None?
      ensures landed.Landed? ==> runs == old(runs) + [Run(id, claim, true)]
      ensures landed.Overlaps? ==> runs == old(runs) && MetBy(runs, claim, landed.run)
      ensures landed.Overlaps? && landed.met.MetAt? ==> claim.Some? && landed.met.cell in claim.value
    {
      if claim.Some? {
        for i := 0 to |runs|
          invariant runs == old(runs)
          invariant forall k :: 0 <= k < i && runs[k].active ==> !Meets(claim, runs[k].claim)
        {
          if runs[i].active {
            var met := FirstMet(claim, runs[i].claim);
            if met.Some? {
              assert runs[i] in runs;
              return Overlaps(met.value, runs[i].id);
            }
          }
        }
      }
      assert claim.None? || forall run :: run in runs && run.active ==> !Meets(claim, run.claim);
      runs := runs + [Run(id, claim, true)];
      return Landed;
    }

    /** A terminal status releases the claim. */
    method Finish(id: string)
      modifies this
      ensures runs == EndedIn(old(runs), id)
      ensures |runs| == |old(runs)|
      ensures forall i :: 0 <= i < |runs| ==>
                && runs[i].id == old(runs)[i].id && runs[i].claim == old(runs)[i].claim
                && (runs[i].active <==> old(runs)[i].active && old(runs)[i].id != id)
    {
      var ended: seq<Run> := [];
      for i := 0 to |runs|
        invariant runs == old(runs) && |ended| == i
        invariant forall k :: 0 <= k < i ==> ended[k] == Ended(runs[k], id)
      {
        ended := ended + [Ended(runs[i], id)];
      }
      runs := ended;
      assert runs == EndedIn(old(runs), id);
    }
  }

  // ----------------------------------------------------------- runs over one store

  /** The runs and the store their builds read and write. */
  datatype Fleet = Fleet(runs: seq<Run>, store: State)

  ghost predicate NewId(runs: seq<Run>, id: string) {
    forall i :: 0 <= i < |runs| ==> runs[i].id != id
  }

  ghost predicate LaunchStep(s: Fleet, t: Fleet, id: string, claim: Claim) {
    NewId(s.runs, id) && Admitted(s.runs, claim) && t == Fleet(s.runs + [Run(id, claim, true)], s.store)
  }

  ghost predicate FinishStep(s: Fleet, t: Fleet, id: string) {
    t == Fleet(EndedIn(s.runs, id), s.store)
  }

  ghost predicate MayWrite(run: Run, c: Cell) {
    run.active && (run.claim.Some? ==> c in run.claim.value)
  }

  // A commit lands while its run is active, within what the run claimed.
  ghost predicate BuildStep(reg: Registry, s: Fleet, t: Fleet, job: Job, fps: Name -> Print)
    requires reg.OpsIndexed()
  {
    && t.runs == s.runs && CommitStep(reg, s.store, t.store, job, fps)
    && exists i :: 0 <= i < |s.runs| && s.runs[i].id == job.run
                   && forall c :: c in OpCells(reg.Op(job.op), job.key) ==> MayWrite(s.runs[i], c)
  }

  // Everything that changes no row of a derived asset.
  ghost predicate QuietStep(reg: Registry, world: World, s: Fleet, t: Fleet)
    requires reg.Valid()
  {
    && t.runs == s.runs
    && (|| (exists a, fp :: ProbeStep(reg, s.store, t.store, a, fp))
        || (exists job :: GoesOn(reg, world, s.store, t.store, job))
        || TickStep(reg, s.store, t.store))
  }

  ghost predicate Step(reg: Registry, world: World, s: Fleet, t: Fleet)
    requires reg.Valid()
  {
    || (exists id, claim :: LaunchStep(s, t, id, claim))
    || (exists id :: FinishStep(s, t, id))
    || (exists job, fps :: BuildStep(reg, s, t, job, fps))
    || QuietStep(reg, world, s, t)
  }

  ghost predicate Behaves(reg: Registry, world: World, trace: seq<Fleet>)
    requires reg.Valid()
  {
    && trace != [] && trace[0].runs == [] && Init(reg, trace[0].store)
    && forall k :: 0 <= k < |trace| - 1 ==> Step(reg, world, trace[k], trace[k + 1])
  }

  // ----------------------------------------------------------- one writer

  ghost predicate DistinctIds(runs: seq<Run>) {
    forall i, j :: 0 <= i < j < |runs| ==> runs[i].id != runs[j].id
  }

  /** Of two active runs that meet, the later one never said what it builds. */
  ghost predicate LaterIsSilent(runs: seq<Run>) {
    forall i, j :: 0 <= i < j < |runs| && runs[i].active && runs[j].active && Meets(runs[j].claim, runs[i].claim) ==>
      runs[j].claim.None?
  }

  lemma LaunchKeepsClaims(s: Fleet, t: Fleet, id: string, claim: Claim)
    requires LaunchStep(s, t, id, claim) && DistinctIds(s.runs) && LaterIsSilent(s.runs)
    ensures DistinctIds(t.runs) && LaterIsSilent(t.runs)
  {
  }

  lemma FinishKeepsClaims(s: Fleet, t: Fleet, id: string)
    requires FinishStep(s, t, id) && DistinctIds(s.runs) && LaterIsSilent(s.runs)
    ensures DistinctIds(t.runs) && LaterIsSilent(t.runs)
  {
  }

  lemma {:induction false} ClaimsThroughout(reg: Registry, world: World, trace: seq<Fleet>, k: nat)
    requires reg.Valid() && Behaves(reg, world, trace) && k < |trace|
    ensures DistinctIds(trace[k].runs) && LaterIsSilent(trace[k].runs)
  {
    if k > 0 {
      ClaimsThroughout(reg, world, trace, k - 1);
      var s, t := trace[k - 1], trace[k];
      assert Step(reg, world, trace[k - 1], trace[k - 1 + 1]);
      if id, claim :| LaunchStep(s, t, id, claim) {
        LaunchKeepsClaims(s, t, id, claim);
      } else if id :| FinishStep(s, t, id) {
        FinishKeepsClaims(s, t, id);
      }
    }
  }

  ghost predicate NoneSilent(runs: seq<Run>) {
    forall i :: 0 <= i < |runs| && runs[i].active ==> runs[i].claim.Some?
  }

  lemma SharersLaterSilent(runs: seq<Run>, i: nat, j: nat, c: Cell)
    requires LaterIsSilent(runs) && i < j < |runs| && MayWrite(runs[i], c) && MayWrite(runs[j], c)
    ensures runs[j].claim.None?
  {
    assert Meets(runs[j].claim, runs[i].claim);
  }

  /** A cell has at most one run that may write it, while every active run says what it builds. */
  lemma OneWriter(reg: Registry, world: World, trace: seq<Fleet>, k: nat, i: nat, j: nat, c: Cell)
    requires reg.Valid() && Behaves(reg, world, trace) && k < |trace|
    requires i < |trace[k].runs| && j < |trace[k].runs| && NoneSilent(trace[k].runs)
    requires MayWrite(trace[k].runs[i], c) && MayWrite(trace[k].runs[j], c)
    ensures i == j
  {
    ClaimsThroughout(reg, world, trace, k);
    if i < j {
      SharersLaterSilent(trace[k].runs, i, j, c);
    } else if j < i {
      SharersLaterSilent(trace[k].runs, j, i, c);
    }
  }

  /** Without that the claim does not hold: a launch that lists nothing joins a run it can collide with. */
  lemma SilentLaunchIsNotRefused(reg: Registry, world: World, sets: Sets, c: Cell) returns (trace: seq<Fleet>)
    requires reg.Valid() && SetsFor(reg, sets)
    ensures Behaves(reg, world, trace) && |trace| == 3
    ensures |trace[2].runs| == 2 && MayWrite(trace[2].runs[0], c) && MayWrite(trace[2].runs[1], c)
  {
    var store := State(sets, {}, map[], {}, map[], map[]);
    var mine, silent := Run("build", Some([c]), true), Run("replay", None, true);
    trace := [Fleet([], store), Fleet([mine], store), Fleet([mine, silent], store)];
    assert [] + [mine] == [mine] && [mine] + [silent] == [mine, silent];
    assert LaunchStep(trace[0], trace[1], "build", Some([c]));
    assert LaunchStep(trace[1], trace[2], "replay", None);
    forall k | 0 <= k < |trace| - 1 ensures Step(reg, world, trace[k], trace[k + 1]) {
      assert k == 0 || k == 1;
    }
  }

  // ----------------------------------------------------------- a claim held over time

  ghost predicate RunAt(runs: seq<Run>, i: nat, id: string, c: Cell) {
    i < |runs| && runs[i].id == id && runs[i].claim.Some? && MayWrite(runs[i], c)
  }

  // A row is what it was, or this run's.
  ghost predicate KeptOrOwn(was: Mats, now: Mats, id: string, c: Cell) {
    || (c in now && now[c].run == Some(id))
    || ((c in was <==> c in now) && (c in was ==> was[c] == now[c]))
  }

  ghost predicate KeepsPlace(s: Fleet, t: Fleet) {
    && |s.runs| <= |t.runs|
    && forall i :: 0 <= i < |s.runs| ==> t.runs[i].id == s.runs[i].id && t.runs[i].claim == s.runs[i].claim
                                         && (t.runs[i].active ==> s.runs[i].active)
  }

  lemma StepKeepsPlace(reg: Registry, world: World, s: Fleet, t: Fleet)
    requires reg.Valid() && Step(reg, world, s, t)
    ensures KeepsPlace(s, t)
  {
  }

  lemma RunStays(a: Fleet, s: Fleet, t: Fleet, i: nat, id: string, c: Cell)
    requires KeepsPlace(a, s) && KeepsPlace(s, t) && RunAt(a.runs, i, id, c) && i < |t.runs| && t.runs[i].active
    ensures RunAt(s.runs, i, id, c) && RunAt(t.runs, i, id, c)
  {
  }

  lemma KeptTwice(a: Mats, b: Mats, d: Mats, id: string, c: Cell)
    requires KeptOrOwn(a, b, id, c) && KeptOrOwn(b, d, id, c)
    ensures KeptOrOwn(a, d, id, c)
  {
  }

  lemma WriterIsHolder(s: Fleet, i: nat, j: nat, id: string, c: Cell)
    requires DistinctIds(s.runs) && LaterIsSilent(s.runs) && NoneSilent(s.runs)
    requires RunAt(s.runs, i, id, c) && j < |s.runs| && MayWrite(s.runs[j], c)
    ensures s.runs[j].id == id
  {
    if i < j {
      SharersLaterSilent(s.runs, i, j, c);
    } else if j < i {
      SharersLaterSilent(s.runs, j, i, c);
    }
  }

  lemma BuildKeepsClaimed(reg: Registry, s: Fleet, t: Fleet, job: Job, fps: Name -> Print, i: nat, id: string, c: Cell)
    requires reg.Valid() && BuildStep(reg, s, t, job, fps)
    requires DistinctIds(s.runs) && LaterIsSilent(s.runs) && NoneSilent(s.runs) && RunAt(s.runs, i, id, c)
    ensures KeptOrOwn(s.store.mats, t.store.mats, id, c)
  {
    var op := reg.Op(job.op);
    if c in OpCells(op, job.key) {
      var j :| 0 <= j < |s.runs| && s.runs[j].id == job.run
            && forall d :: d in OpCells(op, job.key) ==> MayWrite(s.runs[j], d);
      WriterIsHolder(s, i, j, id, c);
    }
  }

  lemma QuietKeepsDerived(reg: Registry, world: World, s: Fleet, t: Fleet, c: Cell)
    requires reg.Valid() && QuietStep(reg, world, s, t) && !reg.IsSource(c.asset)
    ensures (c in s.store.mats <==> c in t.store.mats) && (c in s.store.mats ==> s.store.mats[c] == t.store.mats[c])
  {
    if a, fp :| ProbeStep(reg, s.store, t.store, a, fp) {
      assert c != Cell(a, None);
    } else if job :| GoesOn(reg, world, s.store, t.store, job) {
      GoesOnFrame(reg, world, s.store, t.store, job);
    }
  }

  lemma StepKeepsClaimed(reg: Registry, world: World, s: Fleet, t: Fleet, i: nat, id: string, c: Cell)
    requires reg.Valid() && Step(reg, world, s, t) && !reg.IsSource(c.asset)
    requires DistinctIds(s.runs) && LaterIsSilent(s.runs) && NoneSilent(s.runs) && RunAt(s.runs, i, id, c)
    ensures KeptOrOwn(s.store.mats, t.store.mats, id, c)
  {
    if QuietStep(reg, world, s, t) {
      QuietKeepsDerived(reg, world, s, t, c);
    } else if job, fps :| BuildStep(reg, s, t, job, fps) {
      BuildKeepsClaimed(reg, s, t, job, fps, i, id, c);
    } else {
      assert t.store == s.store;
    }
  }

  lemma {:induction false} PlaceThroughout(reg: Registry, world: World, trace: seq<Fleet>, from: nat, to: nat)
    requires reg.Valid() && Behaves(reg, world, trace) && from <= to < |trace|
    ensures KeepsPlace(trace[from], trace[to])
  {
    if from < to {
      PlaceThroughout(reg, world, trace, from, to - 1);
      assert Step(reg, world, trace[to - 1], trace[to - 1 + 1]);
      StepKeepsPlace(reg, world, trace[to - 1], trace[to]);
    }
  }

  lemma HeldAt(reg: Registry, world: World, trace: seq<Fleet>, from: nat, k: nat, to: nat, i: nat, id: string, c: Cell)
    requires reg.Valid() && Behaves(reg, world, trace) && from <= k <= to < |trace|
    requires RunAt(trace[from].runs, i, id, c) && i < |trace[to].runs| && trace[to].runs[i].active
    ensures RunAt(trace[k].runs, i, id, c)
  {
    PlaceThroughout(reg, world, trace, from, k);
    PlaceThroughout(reg, world, trace, k, to);
    RunStays(trace[from], trace[k], trace[to], i, id, c);
  }

  lemma ClaimedStep(reg: Registry, world: World, trace: seq<Fleet>, k: nat, i: nat, id: string, c: Cell)
    requires reg.Valid() && Behaves(reg, world, trace) && k + 1 < |trace| && !reg.IsSource(c.asset)
    requires RunAt(trace[k].runs, i, id, c) && NoneSilent(trace[k].runs)
    ensures KeptOrOwn(trace[k].store.mats, trace[k + 1].store.mats, id, c)
  {
    ClaimsThroughout(reg, world, trace, k);
    assert Step(reg, world, trace[k], trace[k + 1]);
    StepKeepsClaimed(reg, world, trace[k], trace[k + 1], i, id, c);
  }

  lemma {:induction false} KeptOver(trace: seq<Fleet>, from: nat, to: nat, id: string, c: Cell)
    requires from <= to < |trace|
    requires forall k :: from <= k < to ==> KeptOrOwn(trace[k].store.mats, trace[k + 1].store.mats, id, c)
    ensures KeptOrOwn(trace[from].store.mats, trace[to].store.mats, id, c)
  {
    if from < to {
      KeptOver(trace, from, to - 1, id, c);
      assert KeptOrOwn(trace[to - 1].store.mats, trace[to - 1 + 1].store.mats, id, c);
      KeptTwice(trace[from].store.mats, trace[to - 1].store.mats, trace[to].store.mats, id, c);
    }
  }

  /**
   * While a run holds a claim and every active run says what it builds, nobody
   * else writes a claimed cell: its row is the one at the start, or this run's.
   */
  lemma ClaimHolds(reg: Registry, world: World, trace: seq<Fleet>, from: nat, to: nat, i: nat, id: string, c: Cell)
    requires reg.Valid() && Behaves(reg, world, trace) && from <= to < |trace| && !reg.IsSource(c.asset)
    requires RunAt(trace[from].runs, i, id, c) && i < |trace[to].runs| && trace[to].runs[i].active
    requires forall k :: from <= k < to ==> NoneSilent(trace[k].runs)
    ensures KeptOrOwn(trace[from].store.mats, trace[to].store.mats, id, c)
  {
    forall k | from <= k < to ensures KeptOrOwn(trace[k].store.mats, trace[k + 1].store.mats, id, c) {
      assert NoneSilent(trace[k].runs);
      HeldAt(reg, world, trace, from, k, to, i, id, c);
      ClaimedStep(reg, world, trace, k, i, id, c);
    }
    KeptOver(trace, from, to, id, c);
  }

  // ----------------------------------------------------------- lineage

  lemma QuietIsNext(reg: Registry, world: World, s: Fleet, t: Fleet)
    requires reg.Valid() && QuietStep(reg, world, s, t)
    ensures Next(reg, world, s.store, t.store)
  {
  }

  /** Seen from the store, a step of the fleet is a step of the memoised builder. */
  lemma StepRefines(reg: Registry, world: World, s: Fleet, t: Fleet)
    requires reg.Valid() && Step(reg, world, s, t)
    ensures Next(reg, world, s.store, t.store)
  {
    if QuietStep(reg, world, s, t) {
      QuietIsNext(reg, world, s, t);
    } else if job, fps :| BuildStep(reg, s, t, job, fps) {
      assert CommitStep(reg, s.store, t.store, job, fps);
    }
  }

  /** The store as the runs come and go. */
  ghost function Stores(trace: seq<Fleet>): (r: seq<State>)
    ensures |r| == |trace| && forall i :: 0 <= i < |r| ==> r[i] == trace[i].store
  {
    seq(|trace|, i requires 0 <= i < |trace| => trace[i].store)
  }

  /** Whatever runs do, the store's is one history of the memoised builder. */
  lemma StoresBehave(reg: Registry, world: World, trace: seq<Fleet>)
    requires reg.Valid() && Behaves(reg, world, trace)
    ensures Behaviour(reg, world, Stores(trace))
  {
    var stores := Stores(trace);
    forall i | 0 <= i < |stores| - 1 ensures Next(reg, world, stores[i], stores[i + 1]) {
      assert Step(reg, world, trace[i], trace[i + 1]);
      StepRefines(reg, world, trace[i], trace[i + 1]);
    }
  }

  /**
   * However runs interleave, overlap or end early and whatever key sets do, every
   * row ever committed is explained by one set of rows that were in the store:
   * its fingerprints are theirs at one reading of the key sets and its body's
   * inputs are theirs at a later one, and the two name the same rows exactly when
   * no captured key came or went in between.
   */
  lemma LineageIsHonest(reg: Registry, world: World, trace: seq<Fleet>, k: nat, c: Cell, row: Mat)
    returns (noted: Sets, handed: Sets, snap: Mats)
    requires reg.Valid() && Behaves(reg, world, trace) && k < |trace|
    requires (c, row) in trace[k].store.history && c.asset in reg.byName && !reg.IsSource(c.asset)
    ensures noted.Keys == handed.Keys == trace[k].store.sets.Keys
    ensures ExplainedBy(reg, world, trace[k].store.history, noted, handed, snap, c, row)
    ensures GivenAsRecorded(reg, c, noted, handed, snap) <==> SameHanded(noted, handed, reg.OpFor(c.asset), c.key, snap)
  {
    StoresBehave(reg, world, trace);
    InvThroughout(reg, world, Stores(trace), k, false);
    var store := trace[k].store;
    assert Explained(reg, world, store.history, store.sets, None, c, row);
    noted, handed, snap :|
      noted.Keys == handed.Keys == store.sets.Keys && ExplainedBy(reg, world, store.history, noted, handed, snap, c,
                                                                  row);
    HandedSameIff(noted, handed, reg.OpFor(c.asset), c.key, snap);
  }

  /** So a fresh cell nothing was dropped from under is clean however many runs built side by side. */
  lemma ConcurrentFreshIsClean(reg: Registry, world: World, trace: seq<Fleet>, k: nat, c: Cell)
    requires reg.Valid() && Behaves(reg, world, trace) && k < |trace| && Steady(Stores(trace), k)
    requires c.asset in reg.byName
    requires Faithful(trace[k].store.history) && c in OwnCells(trace[k].store.sets, c.asset)
    requires Fresh(reg, trace[k].store.sets, trace[k].store.mats, c)
    requires NothingDroppedUnder(reg, trace[k].store.sets, trace[k].store.mats, c)
    ensures c in CleanBuild(reg, trace[k].store.sets, world, trace[k].store.mats)
    ensures trace[k].store.mats[c].value == CleanBuild(reg, trace[k].store.sets, world, trace[k].store.mats)[c].value
  {
    StoresBehave(reg, world, trace);
    MemoisedEqualsClean(reg, world, Stores(trace), k, c);
  }
}
