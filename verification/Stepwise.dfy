/**
 * The two accounts of a run agree (src/asset.rs): instances that read their
 * inputs a row at a time, note, hand over and commit, interleaved as they come
 * and with other runs beside them, leave what instances that capture in one step
 * would have left alone.
 */
module Stepwise {
  import opened Prelude
  import opened Assets
  import opened Freshness
  import opened Builds
  import opened Memo
  import opened MemoRuns
  import Execution
  import opened Convergence

  type Inst = Execution.Inst

  type Exec = Execution.Exec

  function JobOf(run: string, i: Inst): Job {
    Job(run, i.op, i.key)
  }

  function InstOf(job: Job): Inst {
    Execution.Inst(job.op, job.key)
  }

  // ----------------------------------------------------------- the steps of one run among others

  /** What some instance captures or writes. */
  ghost predicate Touched(reg: Registry, sets: Sets, insts: set<Inst>, c: Cell)
    requires reg.OpsIndexed()
  {
    exists i :: i in insts && i.op in reg.byOp && TouchedBy(reg.Op(i.op), sets, i.key, c)
  }

  ghost predicate TouchedBy(op: OpMeta, sets: Sets, key: Option<Key>, c: Cell) {
    Captures(sets, op, key, c) || c in OpCells(op, key)
  }

  predicate SameAt(a: Mats, b: Mats, c: Cell) {
    (c in a <==> c in b) && (c in a ==> a[c] == b[c])
  }

  // An instance starts once, after what it waits for has committed.
  ghost predicate Starts(reg: Registry, run: string, insts: set<Inst>, s: State, done: set<Inst>, t: State, i: Inst)
    requires reg.OpsIndexed()
  {
    && i in insts && i !in done && JobOf(run, i) !in s.builds
    && (forall j :: j in insts && Execution.WaitsFor(reg, i, j) ==> j in done)
    && BeginStep(reg, s, t, JobOf(run, i))
  }

  // A build of the run goes on from one stage to the next.
  ghost predicate Proceeds(reg: Registry, world: World, s: State, t: State, job: Job)
    requires reg.OpsIndexed()
  {
    || (exists n :: ListStep(s, t, job, n))
    || (exists d :: ReadStep(s, t, job, d))
    || CaptureStep(reg, s, t, job, None)
    || (exists n :: NoteStep(s, t, job, n))
    || NotedStep(s, t, job)
    || (exists n :: HandStep(s, t, job, n))
    || BodyStep(reg, world, s, t, job)
  }

  /** Another run does something: it leaves this run's builds alone and writes nothing this run captures or writes. */
  ghost predicate Elsewhere(reg: Registry, run: string, insts: set<Inst>, s: State, t: State)
    requires reg.OpsIndexed()
  {
    && t.sets == s.sets
    && (forall job: Job :: job.run == run ==> (job in t.builds <==> job in s.builds) && (job in s.builds ==>
         t.builds[job] == s.builds[job]))
    && forall c :: Touched(reg, s.sets, insts, c) ==> SameAt(s.mats, t.mats, c)
  }

  ghost predicate RunStep(reg: Registry, world: World, run: string, insts: set<Inst>, s: State, done: set<Inst>,
                          t: State, done': set<Inst>)
    requires reg.OpsIndexed()
  {
    || (done' == done && exists i :: Starts(reg, run, insts, s, done, t, i))
    || (done' == done && exists job: Job :: job.run == run && Proceeds(reg, world, s, t, job))
    || (done' == done && Elsewhere(reg, run, insts, s, t))
    || exists job: Job, fps :: job.run == run && done' == done + {InstOf(job)} && CommitStep(reg, s, t, job, fps)
  }

  // ----------------------------------------------------------- the relation

  /** What a build is on its way to recording is what its instance captured. */
  ghost predicate OnItsWay(reg: Registry, sets: Sets, mats: Mats, i: Inst, b: Build)
    requires reg.OpsIndexed() && i.op in reg.byOp
  {
    match b
    case Reading(listed, asked, rows) => listed == sets && ReadSoFar(sets, reg.Op(i.op), i.key, mats, asked, rows)
    case Noting(snap, noted) =>
      noted == sets && RecordedInputs(sets, reg.Op(i.op), i.key, snap) == Execution.Now(reg, sets, mats, i)
    case Handing(snap, noted, _) =>
      noted == sets && RecordedInputs(sets, reg.Op(i.op), i.key, snap) == Execution.Now(reg, sets, mats, i)
    case Made(pending) => pending.inputs == Execution.Now(reg, sets, mats, i)
  }

  ghost predicate ReadSoFar(sets: Sets, op: OpMeta, key: Option<Key>, mats: Mats, asked: set<Cell>, rows: Mats) {
    rows.Keys <= asked && forall d :: d in asked && Captures(sets, op, key, d) ==> SameAt(rows, mats, d)
  }

  ghost predicate Known(run: string, s: State, e: Exec) {
    forall i :: i in e.open <==> JobOf(run, i) in s.builds
  }

  ghost predicate Holding(reg: Registry, sets: Sets, run: string, s: State, e: Exec)
    requires reg.OpsIndexed()
  {
    forall i :: i in e.open && JobOf(run, i) in s.builds ==>
      i.op in reg.byOp && OnItsWay(reg, sets, e.mats, i, s.builds[JobOf(run, i)])
  }

  ghost predicate Agree(reg: Registry, sets: Sets, insts: set<Inst>, a: Mats, b: Mats)
    requires reg.OpsIndexed()
  {
    forall c :: Touched(reg, sets, insts, c) ==> SameAt(a, b, c)
  }

  ghost predicate Sound(reg: Registry, sets: Sets, insts: set<Inst>, e: Exec)
    requires reg.OpsIndexed()
  {
    Execution.Ordered(reg, insts, e) && Execution.Current(reg, sets, e)
  }

  /** The same rows wherever the run reads or writes, the same instances done, and every open one on its way. */
  ghost predicate Matches(reg: Registry, sets: Sets, run: string, insts: set<Inst>, s: State, done: set<Inst>, e: Exec)
    requires reg.OpsIndexed()
  {
    && s.sets == sets && e.done == done && Agree(reg, sets, insts, s.mats, e.mats)
    && Known(run, s, e) && Holding(reg, sets, run, s, e) && Sound(reg, sets, insts, e)
  }

  // ----------------------------------------------------------- each step

  lemma Begun(reg: Registry, sets: Sets, insts: set<Inst>, i: Inst, e: Exec) returns (e': Exec)
    requires reg.OpsIndexed() && Sound(reg, sets, insts, e) && i in insts && i.op in reg.byOp && i !in e.done
    requires i !in e.open
    requires forall j :: j in insts && Execution.WaitsFor(reg, i, j) ==> j in e.done
    ensures Execution.Step(reg, sets, insts, e, e') && Sound(reg, sets, insts, e')
    ensures e'.mats == e.mats && e'.done == e.done && e'.open.Keys == e.open.Keys + {i}
  {
    var op := reg.Op(i.op);
    e' := e.(open := e.open[i := RecordedInputs(sets, op, i.key, Snapshot(sets, op, i.key, e.mats))]);
    assert Execution.OpenStep(reg, sets, insts, e, e', i);
    Execution.OpenKeepsCurrent(reg, sets, insts, e, e', i);
  }

  lemma StartMatches(reg: Registry, sets: Sets, run: string, insts: set<Inst>, s: State, done: set<Inst>, t: State,
                     i: Inst, e: Exec)
    returns (e': Exec)
    requires reg.OpsIndexed() && Matches(reg, sets, run, insts, s, done, e) && Starts(reg, run, insts, s, done, t, i)
    ensures Execution.Step(reg, sets, insts, e, e') && Matches(reg, sets, run, insts, t, done, e')
  {
    e' := Begun(reg, sets, insts, i, e);
    StartKnown(run, s, t, i, e, e');
    StartHolding(reg, sets, run, s, t, i, e, e');
  }

  lemma StartKnown(run: string, s: State, t: State, i: Inst, e: Exec, e': Exec)
    requires Known(run, s, e) && t.builds.Keys == s.builds.Keys + {JobOf(run, i)} && e'.open.Keys == e.open.Keys + {i}
    ensures Known(run, t, e')
  {
    forall j ensures j in e'.open <==> JobOf(run, j) in t.builds {
      assert JobOf(run, j) == JobOf(run, i) <==> j == i;
    }
  }

  lemma StartHolding(reg: Registry, sets: Sets, run: string, s: State, t: State, i: Inst, e: Exec, e': Exec)
    requires reg.OpsIndexed() && Holding(reg, sets, run, s, e) && Known(run, s, e) && s.sets == sets && i.op in reg.byOp
    requires t.builds == s.builds[JobOf(run, i) := Reading(sets, {}, map[])]
    requires e'.mats == e.mats && e'.open.Keys == e.open.Keys + {i}
    ensures Holding(reg, sets, run, t, e')
  {
    forall j | j in e'.open && JobOf(run, j) in t.builds
      ensures j.op in reg.byOp && OnItsWay(reg, sets, e'.mats, j, t.builds[JobOf(run, j)])
    {
      if j != i {
        assert JobOf(run, j) != JobOf(run, i) && j in e.open && JobOf(run, j) in s.builds;
      }
    }
  }

  // One build of the run moves on, to a stage it may be in.
  ghost predicate MovesOn(run: string, s: State, t: State, job: Job) {
    && job.run == run && job in s.builds && job in t.builds
    && t.sets == s.sets && t.mats == s.mats && t.builds == s.builds[job := t.builds[job]]
  }

  lemma MovesOnMatches(reg: Registry, sets: Sets, run: string, insts: set<Inst>, s: State, done: set<Inst>, t: State,
                       job: Job, e: Exec)
    requires reg.OpsIndexed() && Matches(reg, sets, run, insts, s, done, e) && MovesOn(run, s, t, job)
    requires job.op in reg.byOp
    requires OnItsWay(reg, sets, e.mats, InstOf(job), t.builds[job])
    ensures Matches(reg, sets, run, insts, t, done, e)
  {
    assert t.builds.Keys == s.builds.Keys;
    forall j | j in e.open && JobOf(run, j) in t.builds
      ensures j.op in reg.byOp && OnItsWay(reg, sets, e.mats, j, t.builds[JobOf(run, j)])
    {
      assert JobOf(run, j) == job ==> j == InstOf(job);
    }
  }

  lemma ReadOneMore(sets: Sets, op: OpMeta, key: Option<Key>, mats: Mats, mats': Mats, asked: set<Cell>, rows: Mats,
                    d: Cell)
    requires ReadSoFar(sets, op, key, mats, asked, rows) && d !in asked
    requires Captures(sets, op, key, d) ==> SameAt(mats', mats, d)
    ensures ReadSoFar(sets, op, key, mats, asked + {d}, if d in mats' then rows[d := mats'[d]] else rows)
  {
  }

  lemma ReadAllIsSnapshot(sets: Sets, op: OpMeta, key: Option<Key>, mats: Mats, asked: set<Cell>, rows: Mats)
    requires ReadAll(sets, op, key, asked) && ReadSoFar(sets, op, key, mats, asked, rows)
    ensures rows == Snapshot(sets, op, key, mats)
  {
  }

  lemma OpenIsTouched(reg: Registry, sets: Sets, insts: set<Inst>, e: Exec, i: Inst, d: Cell)
    requires reg.OpsIndexed() && Sound(reg, sets, insts, e) && i in e.open && i.op in reg.byOp
    requires Captures(sets, reg.Op(i.op), i.key, d)
    ensures Touched(reg, sets, insts, d)
  {
    assert TouchedBy(reg.Op(i.op), sets, i.key, d);
  }

  lemma ReadOnItsWay(reg: Registry, sets: Sets, run: string, insts: set<Inst>, s: State, done: set<Inst>, t: State,
                     job: Job, d: Cell, e: Exec)
    requires reg.OpsIndexed() && Matches(reg, sets, run, insts, s, done, e) && ReadStep(s, t, job, d) && job.run == run
    ensures job.op in reg.byOp && job in t.builds && OnItsWay(reg, sets, e.mats, InstOf(job), t.builds[job])
  {
    var i, b := InstOf(job), s.builds[job];
    assert JobOf(run, i) == job && i in e.open;
    assert OnItsWay(reg, sets, e.mats, i, b);
    if Captures(sets, reg.Op(i.op), i.key, d) {
      OpenIsTouched(reg, sets, insts, e, i, d);
    }
    ReadOneMore(sets, reg.Op(i.op), i.key, e.mats, s.mats, b.asked, b.rows, d);
  }

  lemma CaptureOnItsWay(reg: Registry, sets: Sets, mats: Mats, i: Inst, b: Build)
    requires reg.OpsIndexed() && i.op in reg.byOp && b.Reading? && OnItsWay(reg, sets, mats, i, b)
    requires ReadAll(b.listed, reg.Op(i.op), i.key, b.asked)
    ensures OnItsWay(reg, sets, mats, i, Noting(b.rows, sets))
  {
    ReadAllIsSnapshot(sets, reg.Op(i.op), i.key, mats, b.asked, b.rows);
    Execution.SnapshotRecordsNow(sets, reg.Op(i.op), i.key, mats);
  }

  lemma ProceedMovesOn(reg: Registry, world: World, run: string, s: State, t: State, job: Job)
    requires reg.OpsIndexed() && Proceeds(reg, world, s, t, job) && job.run == run
    ensures MovesOn(run, s, t, job)
  {
    ProceedFrame(reg, world, s, t, job);
  }

  lemma ProceedFrame(reg: Registry, world: World, s: State, t: State, job: Job)
    requires reg.OpsIndexed() && Proceeds(reg, world, s, t, job)
    ensures job in s.builds && job in t.builds && t.sets == s.sets && t.mats == s.mats
    ensures t.builds == s.builds[job := t.builds[job]]
  {
    if n :| ListStep(s, t, job, n) {
    } else if d :| ReadStep(s, t, job, d) {
    } else if n :| NoteStep(s, t, job, n) {
    } else if n :| HandStep(s, t, job, n) {
    }
  }

  // Listed, noted or handed over again at key sets that have not changed.
  lemma LookedUpAgain(sets: Sets, n: Name)
    requires n in sets
    ensures sets[n := sets[n]] == sets
  {
  }

  lemma ProceedOnItsWay(reg: Registry, world: World, sets: Sets, s: State, t: State, job: Job, mats: Mats)
    requires reg.OpsIndexed() && job.op in reg.byOp && s.sets == sets && job in s.builds && job in t.builds
    requires OnItsWay(reg, sets, mats, InstOf(job), s.builds[job])
    requires Proceeds(reg, world, s, t, job) && !(exists d :: ReadStep(s, t, job, d))
    ensures OnItsWay(reg, sets, mats, InstOf(job), t.builds[job])
  {
    var i, b := InstOf(job), s.builds[job];
    if n :| ListStep(s, t, job, n) {
      LookedUpAgain(sets, n);
    } else if CaptureStep(reg, s, t, job, None) {
      CaptureOnItsWay(reg, sets, mats, i, b);
    } else if n :| NoteStep(s, t, job, n) {
      LookedUpAgain(sets, n);
    } else if NotedStep(s, t, job) {
    } else if n :| HandStep(s, t, job, n) {
    } else {
      assert BodyStep(reg, world, s, t, job);
    }
  }

  lemma ProceedMatches(reg: Registry, world: World, sets: Sets, run: string, insts: set<Inst>, s: State,
                       done: set<Inst>, t: State, job: Job, e: Exec)
    requires reg.OpsIndexed() && Matches(reg, sets, run, insts, s, done, e) && job.run == run
    requires Proceeds(reg, world, s, t, job)
    ensures Matches(reg, sets, run, insts, t, done, e)
  {
    ProceedMovesOn(reg, world, run, s, t, job);
    assert JobOf(run, InstOf(job)) == job && InstOf(job) in e.open;
    assert OnItsWay(reg, sets, e.mats, InstOf(job), s.builds[job]);
    if d :| ReadStep(s, t, job, d) {
      ReadOnItsWay(reg, sets, run, insts, s, done, t, job, d, e);
    } else {
      ProceedOnItsWay(reg, world, sets, s, t, job, e.mats);
    }
    MovesOnMatches(reg, sets, run, insts, s, done, t, job, e);
  }

  lemma ElsewhereMatches(reg: Registry, sets: Sets, run: string, insts: set<Inst>, s: State, done: set<Inst>, t: State,
                         e: Exec)
    requires reg.OpsIndexed() && Matches(reg, sets, run, insts, s, done, e) && Elsewhere(reg, run, insts, s, t)
    ensures Matches(reg, sets, run, insts, t, done, e)
  {
    forall c | Touched(reg, sets, insts, c) ensures SameAt(t.mats, e.mats, c) {
      assert SameAt(s.mats, t.mats, c) && SameAt(s.mats, e.mats, c);
    }
    forall i ensures i in e.open <==> JobOf(run, i) in t.builds {
      assert i in e.open <==> JobOf(run, i) in s.builds;
    }
    forall i | i in e.open && JobOf(run, i) in t.builds
      ensures i.op in reg.byOp && OnItsWay(reg, sets, e.mats, i, t.builds[JobOf(run, i)])
    {
      assert OnItsWay(reg, sets, e.mats, i, s.builds[JobOf(run, i)]);
    }
  }

  // ----------------------------------------------------------- a commit

  lemma Closes(reg: Registry, sets: Sets, insts: set<Inst>, e: Exec, i: Inst, rows: Mats) returns (e': Exec)
    requires reg.Valid() && Sound(reg, sets, insts, e) && i in e.open && i.op in reg.byOp
    requires rows.Keys == OpCells(reg.Op(i.op), i.key)
    requires forall c :: c in rows ==> rows[c].inputs == Execution.Now(reg, sets, e.mats, i)
    ensures Execution.Step(reg, sets, insts, e, e') && Sound(reg, sets, insts, e')
    ensures e' == Execution.Exec(e.mats + rows, e.open - {i}, e.done + {i})
  {
    assert e.open[i] == Execution.Now(reg, sets, e.mats, i);
    e' := Execution.Exec(e.mats + rows, e.open - {i}, e.done + {i});
    assert Execution.CloseStep(reg, e, e', i, rows);
    Execution.RegistryHasOneWriter(reg, insts);
    Execution.CloseKeepsCurrent(reg, sets, insts, e, e', i, rows);
  }

  // A commit moves no row another open instance reads.
  lemma StillOnItsWay(reg: Registry, sets: Sets, insts: set<Inst>, e: Exec, i: Inst, rows: Mats, other: Inst, b: Build)
    requires reg.OpsIndexed() && Sound(reg, sets, insts, e) && i in e.open && other in e.open && i.op in reg.byOp
    requires other.op in reg.byOp
    requires rows.Keys == OpCells(reg.Op(i.op), i.key) && OnItsWay(reg, sets, e.mats, other, b)
    ensures OnItsWay(reg, sets, e.mats + rows, other, b)
  {
    Execution.NotReadBy(reg, insts, e, i, other, rows);
    Execution.NowUnmoved(sets, reg.Op(other.op), other.key, e.mats, rows);
  }

  lemma CommitHolding(reg: Registry, sets: Sets, run: string, insts: set<Inst>, s: State, t: State, job: Job, e: Exec,
                      e': Exec, rows: Mats)
    requires reg.OpsIndexed() && Known(run, s, e) && Holding(reg, sets, run, s, e) && Sound(reg, sets, insts, e)
    requires job.run == run && job in s.builds && job.op in reg.byOp && t.builds == s.builds - {job}
    requires rows.Keys == OpCells(reg.Op(job.op), job.key)
    requires e' == Execution.Exec(e.mats + rows, e.open - {InstOf(job)}, e.done + {InstOf(job)})
    ensures Known(run, t, e') && Holding(reg, sets, run, t, e')
  {
    assert JobOf(run, InstOf(job)) == job;
    forall j ensures j in e'.open <==> JobOf(run, j) in t.builds {
      assert JobOf(run, j) == job <==> j == InstOf(job);
    }
    forall j | j in e'.open && JobOf(run, j) in t.builds
      ensures j.op in reg.byOp && OnItsWay(reg, sets, e'.mats, j, t.builds[JobOf(run, j)])
    {
      StillOnItsWay(reg, sets, insts, e, InstOf(job), rows, j, s.builds[JobOf(run, j)]);
    }
  }

  lemma AgreeOn(reg: Registry, sets: Sets, insts: set<Inst>, a: Mats, b: Mats, rows: Mats)
    requires reg.OpsIndexed() && Agree(reg, sets, insts, a, b)
    ensures Agree(reg, sets, insts, a + rows, b + rows)
  {
    forall c | Touched(reg, sets, insts, c) ensures SameAt(a + rows, b + rows, c) {
      assert SameAt(a, b, c);
    }
  }

  lemma CommitRows(reg: Registry, sets: Sets, mats: Mats, job: Job, b: Build, fps: Name -> Print)
    requires reg.OpsIndexed() && job.op in reg.byOp && b.Made? && OnItsWay(reg, sets, mats, InstOf(job), b)
    ensures var rows := BuiltRows(reg.Op(job.op), job.key, job.run, b.pending, fps);
            && rows.Keys == OpCells(reg.Op(job.op), job.key)
            && forall c :: c in rows ==> rows[c].inputs == Execution.Now(reg, sets, mats, InstOf(job))
  {
  }

  lemma CommitMatches(reg: Registry, sets: Sets, run: string, insts: set<Inst>, s: State, done: set<Inst>, t: State,
                      job: Job, fps: Name -> Print, e: Exec) returns (e': Exec)
    requires reg.Valid() && Matches(reg, sets, run, insts, s, done, e) && job.run == run
    requires CommitStep(reg, s, t, job, fps)
    ensures Execution.Step(reg, sets, insts, e, e') && Matches(reg, sets, run, insts, t, done + {InstOf(job)}, e')
  {
    var i, rows := InstOf(job), BuiltRows(reg.Op(job.op), job.key, job.run, s.builds[job].pending, fps);
    assert JobOf(run, i) == job && i in e.open;
    assert OnItsWay(reg, sets, e.mats, i, s.builds[job]);
    CommitRows(reg, sets, e.mats, job, s.builds[job], fps);
    e' := Closes(reg, sets, insts, e, i, rows);
    CommitHolding(reg, sets, run, insts, s, t, job, e, e', rows);
    AgreeOn(reg, sets, insts, s.mats, e.mats, rows);
  }

  ghost predicate Follows(reg: Registry, sets: Sets, insts: set<Inst>, e: Exec, e': Exec)
    requires reg.OpsIndexed()
  {
    e' == e || Execution.Step(reg, sets, insts, e, e')
  }

  /** Each step of a run among others is a step of its instances, or none that shows. */
  lemma StepMatches(reg: Registry, world: World, sets: Sets, run: string, insts: set<Inst>, s: State, done: set<Inst>,
                    t: State, done': set<Inst>, e: Exec) returns (e': Exec)
    requires reg.Valid() && Matches(reg, sets, run, insts, s, done, e)
    requires RunStep(reg, world, run, insts, s, done, t, done')
    ensures Follows(reg, sets, insts, e, e') && Matches(reg, sets, run, insts, t, done', e')
  {
    e' := e;
    if done' == done && exists i :: Starts(reg, run, insts, s, done, t, i) {
      var i :| Starts(reg, run, insts, s, done, t, i);
      e' := StartMatches(reg, sets, run, insts, s, done, t, i, e);
    } else if done' == done && exists job: Job :: job.run == run && Proceeds(reg, world, s, t, job) {
      var job: Job :| job.run == run && Proceeds(reg, world, s, t, job);
      ProceedMatches(reg, world, sets, run, insts, s, done, t, job, e);
    } else if done' == done && Elsewhere(reg, run, insts, s, t) {
      ElsewhereMatches(reg, sets, run, insts, s, done, t, e);
    } else {
      var job: Job, fps :| job.run == run && done' == done + {InstOf(job)} && CommitStep(reg, s, t, job, fps);
      e' := CommitMatches(reg, sets, run, insts, s, done, t, job, fps, e);
    }
  }

  // ----------------------------------------------------------- a whole run

  // From a state with none of the run's builds under way to one with all of its instances done.
  ghost predicate StepsOf(reg: Registry, world: World, run: string, insts: set<Inst>, states: seq<State>,
                          dones: seq<set<Inst>>)
    requires reg.OpsIndexed()
  {
    && |states| == |dones| > 0 && dones[0] == {} && (forall job: Job :: job in states[0].builds ==> job.run != run)
    && forall k :: 0 <= k < |states| - 1 ==>
         RunStep(reg, world, run, insts, states[k], dones[k], states[k + 1], dones[k + 1])
  }

  lemma FirstMatches(reg: Registry, run: string, insts: set<Inst>, s: State)
    requires reg.OpsIndexed() && (forall i :: i in insts ==> i.op in reg.byOp)
    requires forall job :: job in s.builds ==> job.run != run
    ensures Matches(reg, s.sets, run, insts, s, {}, Execution.Exec(s.mats, map[], {}))
  {
  }

  lemma ExtendRuns(reg: Registry, sets: Sets, insts: set<Inst>, start: Mats, trace: seq<Exec>, e: Exec)
    requires reg.OpsIndexed() && Execution.Runs(reg, sets, insts, start, trace)
    requires Execution.Step(reg, sets, insts, trace[|trace| - 1], e)
    ensures Execution.Runs(reg, sets, insts, start, trace + [e])
  {
    var longer := trace + [e];
    forall k | 0 <= k < |longer| - 1 ensures Execution.Step(reg, sets, insts, longer[k], longer[k + 1]) {
      if k < |trace| - 1 {
        assert Execution.Step(reg, sets, insts, trace[k], trace[k + 1]);
      }
    }
  }

  lemma StepOf(reg: Registry, world: World, run: string, insts: set<Inst>, states: seq<State>, dones: seq<set<Inst>>,
               k: nat)
    requires reg.OpsIndexed() && StepsOf(reg, world, run, insts, states, dones) && k + 1 < |states|
    ensures RunStep(reg, world, run, insts, states[k], dones[k], states[k + 1], dones[k + 1])
  {
  }

  lemma SimulatedOnce(reg: Registry, world: World, sets: Sets, start: Mats, run: string, insts: set<Inst>, s: State,
                      done: set<Inst>, t: State, done': set<Inst>, trace: seq<Exec>) returns (longer: seq<Exec>)
    requires reg.Valid() && Execution.Runs(reg, sets, insts, start, trace)
    requires Matches(reg, sets, run, insts, s, done, trace[|trace| - 1])
    requires RunStep(reg, world, run, insts, s, done, t, done')
    ensures Execution.Runs(reg, sets, insts, start, longer)
    ensures Matches(reg, sets, run, insts, t, done', longer[|longer| - 1])
  {
    var e := StepMatches(reg, world, sets, run, insts, s, done, t, done', trace[|trace| - 1]);
    if e == trace[|trace| - 1] {
      longer := trace;
    } else {
      ExtendRuns(reg, sets, insts, start, trace, e);
      longer := trace + [e];
    }
  }

  lemma {:induction false} StepsSimulated(reg: Registry, world: World, run: string, insts: set<Inst>,
                                          states: seq<State>, dones: seq<set<Inst>>, k: nat) returns (trace: seq<Exec>)
    requires reg.Valid() && (forall i :: i in insts ==> i.op in reg.byOp)
    requires StepsOf(reg, world, run, insts, states, dones) && k < |states|
    ensures Execution.Runs(reg, states[0].sets, insts, states[0].mats, trace)
    ensures Matches(reg, states[0].sets, run, insts, states[k], dones[k], trace[|trace| - 1])
  {
    var s := states[0];
    if k == 0 {
      FirstMatches(reg, run, insts, s);
      trace := [Execution.Exec(s.mats, map[], {})];
    } else {
      trace := StepsSimulated(reg, world, run, insts, states, dones, k - 1);
      StepOf(reg, world, run, insts, states, dones, k - 1);
      trace := SimulatedOnce(reg, world, s.sets, s.mats, run, insts, states[k - 1], dones[k - 1], states[k], dones[k],
                             trace);
    }
  }

  /**
   * A run whose instances read a row at a time and commit when they will, each
   * starting after what it waits for, beside others that write nothing it
   * captures or writes, ends as it would have alone with instances that capture
   * in one step: what is proved of every complete run is true of it, wherever it
   * reads or writes.
   */
  lemma StepwiseCompletes(reg: Registry, world: World, run: string, insts: set<Inst>, states: seq<State>,
                          dones: seq<set<Inst>>)
    returns (end: Mats)
    requires reg.Valid() && (forall i :: i in insts ==> i.op in reg.byOp)
    requires StepsOf(reg, world, run, insts, states, dones) && dones[|dones| - 1] == insts
    ensures Execution.Completes(reg, states[0].sets, insts, states[0].mats, end)
    ensures forall c :: Touched(reg, states[0].sets, insts, c) ==> SameAt(states[|states| - 1].mats, end, c)
    ensures forall c :: !Touched(reg, states[0].sets, insts, c) ==> SameAt(states[0].mats, end, c)
    ensures states[|states| - 1].sets == states[0].sets
  {
    var trace := StepsSimulated(reg, world, run, insts, states, dones, |states| - 1);
    end := trace[|trace| - 1].mats;
    assert Execution.Ends(trace, insts, end);
    Execution.CompleteRun(reg, states[0].sets, insts, states[0].mats, end);
    forall c | !Touched(reg, states[0].sets, insts, c) ensures SameAt(states[0].mats, end, c) {
      WrittenTouched(reg, states[0].sets, insts, c);
    }
  }

  lemma WrittenTouched(reg: Registry, sets: Sets, insts: set<Inst>, c: Cell)
    requires reg.OpsIndexed()
    ensures Execution.Written(reg, insts, c) ==> Touched(reg, sets, insts, c)
  {
    if Execution.Written(reg, insts, c) {
      var i :| i in insts && Execution.InstCell(reg, i, c);
      assert TouchedBy(reg.Op(i.op), sets, i.key, c);
    }
  }

  // ----------------------------------------------------------- claims, freshness and values

  /** A commit within a claim that holds nothing a run captures or writes happens elsewhere for that run. */
  lemma ClaimedElsewhere(reg: Registry, run: string, insts: set<Inst>, s: State, t: State, job: Job, fps: Name -> Print,
                         claim: set<Cell>)
    requires reg.OpsIndexed() && CommitStep(reg, s, t, job, fps) && job.run != run
    requires OpCells(reg.Op(job.op), job.key) <= claim
    requires forall c :: c in claim ==> !Touched(reg, s.sets, insts, c)
    ensures Elsewhere(reg, run, insts, s, t)
  {
    forall c | Touched(reg, s.sets, insts, c) ensures SameAt(s.mats, t.mats, c) {
      assert c !in OpCells(reg.Op(job.op), job.key);
    }
  }

  /** And so does everything else another run's builds do, and its end. */
  lemma GoingOnElsewhere(reg: Registry, world: World, run: string, insts: set<Inst>, s: State, t: State, job: Job)
    requires reg.OpsIndexed() && GoesOn(reg, world, s, t, job) && job.run != run
    ensures Elsewhere(reg, run, insts, s, t)
  {
    GoesOnFrame(reg, world, s, t, job);
  }

  /**
   * Disjoint claims alone would not do: in a run that completes as it would alone
   * two instances record one fingerprint of a dep they both read, and with
   * another run rebuilding the dep in between they need not.
   */
  lemma OneReadingOfEachDep(reg: Registry, sets: Sets, insts: set<Inst>, start: Mats, end: Mats, i: Inst, j: Inst,
                            c: Cell, d: Cell, dep: Name)
    requires reg.Valid() && Execution.Completes(reg, sets, insts, start, end) && i in insts && j in insts
    requires i.op in reg.byOp && j.op in reg.byOp && Execution.InstCell(reg, i, c) && Execution.InstCell(reg, j, d)
    requires dep !in sets && dep in reg.Op(i.op).deps && dep in reg.Op(j.op).deps
    ensures c in end && d in end && Lookup(end[c].inputs, dep) == Lookup(end[d].inputs, dep)
  {
    Execution.CompleteRun(reg, sets, insts, start, end);
    assert Lookup(Execution.Now(reg, sets, end, i), dep) == Some(FpValue(PrintOf(end, Cell(dep, None))));
    assert Lookup(Execution.Now(reg, sets, end, j), dep) == Some(FpValue(PrintOf(end, Cell(dep, None))));
  }

  lemma {:induction false} FreshWhereSame(reg: Registry, sets: Sets, a: Mats, b: Mats, region: iset<Cell>, c: Cell)
    requires reg.Valid() && Execution.Region(reg, sets, region) && c in region && Fresh(reg, sets, a, c)
    requires forall d :: d in region ==> SameAt(a, b, d)
    ensures Fresh(reg, sets, b, c)
    decreases reg.byName[c.asset]
  {
    assert SameAt(a, b, c);
    forall d | ReadsCell(reg, sets, c, d)
      ensures d.asset in reg.byName && c in b && EdgeHolds(reg, sets, b, c, d) && Fresh(reg, sets, b, d)
    {
      ReadsRank(reg, sets, c, d);
      assert EdgeHolds(reg, sets, a, c, d) && SameAt(a, b, d);
      FreshWhereSame(reg, sets, a, b, region, d);
    }
  }

  // Others have written nothing of the region the run does not touch.
  ghost predicate RestKept(reg: Registry, insts: set<Inst>, first: State, last: State, region: iset<Cell>)
    requires reg.OpsIndexed()
  {
    forall c :: c in region && !Touched(reg, first.sets, insts, c) ==> SameAt(first.mats, last.mats, c)
  }

  /** A plan that always leaves a region fresh leaves it fresh run side by side with others that write nothing of it. */
  lemma SideBySideFresh(reg: Registry, world: World, run: string, insts: set<Inst>, states: seq<State>,
                        dones: seq<set<Inst>>, region: iset<Cell>)
    requires reg.Valid() && (forall i :: i in insts ==> i.op in reg.byOp)
    requires StepsOf(reg, world, run, insts, states, dones) && dones[|dones| - 1] == insts
    requires Execution.Region(reg, states[0].sets, region)
    requires AlwaysFresh(reg, states[0].sets, insts, states[0].mats, region)
    requires RestKept(reg, insts, states[0], states[|states| - 1], region)
    ensures Execution.AllFresh(reg, states[0].sets, states[|states| - 1].mats, region)
  {
    var end := StepwiseCompletes(reg, world, run, insts, states, dones);
    var sets, mats := states[0].sets, states[|states| - 1].mats;
    forall d | d in region ensures SameAt(end, mats, d) {
      assert Touched(reg, sets, insts, d) ==> SameAt(mats, end, d);
    }
    forall c | c in region ensures c.asset in reg.byName && Fresh(reg, sets, mats, c) {
      FreshWhereSame(reg, sets, end, mats, region, c);
    }
  }

  /**
   * From the plan to the value: in any history of the store that takes back no
   * dropped key, once a plan that always leaves its target's cone fresh has been
   * run to its end, beside others that write nothing of the cone or of what it
   * reads, the target holds what a from-scratch build would give, as long as
   * fingerprints tell values apart and no row under the target recorded a key
   * dropped since.
   */
  lemma BuildMakesClean(reg: Registry, world: World, trace: seq<State>, from: nat, run: string, insts: set<Inst>,
                        dones: seq<set<Inst>>, root: Cell)
    requires reg.Valid() && Behaviour(reg, world, trace) && from < |trace|
    requires forall i :: i in insts ==> i.op in reg.byOp
    requires Steady(trace, |trace| - 1)
    requires StepsOf(reg, world, run, insts, trace[from..], dones) && dones[|dones| - 1] == insts
    requires WellKeyed(reg, trace[from].sets, root) && root in OwnCells(trace[from].sets, root.asset)
    requires SetsFor(reg, trace[from].sets)
    requires AlwaysFresh(reg, trace[from].sets, insts, trace[from].mats, Cone(reg, trace[from].sets, root))
    requires RestKept(reg, insts, trace[from], trace[|trace| - 1], Cone(reg, trace[from].sets, root))
    requires Faithful(trace[|trace| - 1].history)
    requires NothingDroppedUnder(reg, trace[|trace| - 1].sets, trace[|trace| - 1].mats, root)
    ensures var end := trace[|trace| - 1];
            && root in end.mats && root in CleanBuild(reg, end.sets, world, end.mats)
            && end.mats[root].value == CleanBuild(reg, end.sets, world, end.mats)[root].value
  {
    var end := trace[|trace| - 1];
    var alone := StepwiseCompletes(reg, world, run, insts, trace[from..], dones);
    ConeIsRegion(reg, end.sets, root);
    SideBySideFresh(reg, world, run, insts, trace[from..], dones, Cone(reg, end.sets, root));
    RootWanted(reg, end.sets, root);
    assert Fresh(reg, end.sets, end.mats, root);
    MemoisedEqualsClean(reg, world, trace, |trace| - 1, root);
  }
}
