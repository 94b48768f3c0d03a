/**
 * Every history of the store (src/asset.rs): probes, builds that read a row at a
 * time, replays and sliding key sets, in any interleaving, keep lineage honest,
 * so in every state they reach memoised equals clean.
 */
module MemoRuns {
  import opened Prelude
  import opened Assets
  import opened Freshness
  import opened Builds
  import opened Memo

  datatype Job = Job(run: string, op: Name, key: Option<Key>)

  /**
   * A build under way: reading its inputs one row at a time, with the key sets it
   * has listed, the cells it has asked for and the rows that were there; noting
   * the fingerprints of the rows captured; handing them over; or with its output
   * made. Each dep's key set is looked up anew at each of the first three.
   */
  datatype Build =
    | Reading(listed: Sets, asked: set<Cell>, rows: Mats)
    | Noting(snap: Mats, noted: Sets)
    | Handing(snap: Mats, noted: Sets, handed: Sets)
    | Made(pending: Pending)

  /**
   * The key sets and every key they have dropped, the store, every row it has
   * held, what replays may read, and the builds under way.
   */
  datatype State = State(
    sets: Sets,
    dropped: Drops,
    mats: Mats,
    history: History,
    saved: map<Job, Mats>,
    builds: map<Job, Build>)

  ghost predicate ProbeStep(reg: Registry, s: State, t: State, a: Name, fp: Print) {
    var c, row := Cell(a, None), Mat(fp, map[], Null, None);
    reg.IsSource(a) && t == s.(mats := s.mats[c := row], history := s.history + {(c, row)})
  }

  ghost predicate BeginStep(reg: Registry, s: State, t: State, job: Job)
    requires reg.OpsIndexed()
  {
    job.op in reg.byOp && t == s.(builds := s.builds[job := Reading(s.sets, {}, map[])])
  }

  ghost predicate ListStep(s: State, t: State, job: Job, n: Name) {
    && job in s.builds && s.builds[job].Reading? && n in s.sets
    && var b := s.builds[job];
       t == s.(builds := s.builds[job := Reading(b.listed[n := s.sets[n]], b.asked, b.rows)])
  }

  // One row is read at a time, so other builds may commit between one read and the next.
  ghost predicate ReadStep(s: State, t: State, job: Job, d: Cell) {
    && job in s.builds && s.builds[job].Reading? && d !in s.builds[job].asked
    && var b := s.builds[job];
       t == s.(builds := s.builds[job := Reading(b.listed, b.asked + {d},
                                                 if d in s.mats then b.rows[d := s.mats[d]] else b.rows)])
  }

  ghost predicate ReadAll(sets: Sets, op: OpMeta, key: Option<Key>, asked: set<Cell>) {
    forall d :: d in asked <==> Captures(sets, op, key, d)
  }

  function CapturedRows(s: State, job: Job, rows: Mats, original: Option<string>): Mats
    requires original.Some? ==> Job(original.value, job.op, job.key) in s.saved
  {
    if original.Some? then ReplaySnapshot(s.saved[Job(original.value, job.op, job.key)], rows, job.run) else rows
  }

  // With every input read at the keys listed, the rows are saved; a replay starts
  // from the rows its original saved.
  ghost predicate CaptureStep(reg: Registry, s: State, t: State, job: Job, original: Option<string>)
    requires reg.OpsIndexed()
  {
    && job in s.builds && s.builds[job].Reading? && job.op in reg.byOp
    && ReadAll(s.builds[job].listed, reg.Op(job.op), job.key, s.builds[job].asked)
    && (original.Some? ==> Job(original.value, job.op, job.key) in s.saved)
    && var snap := CapturedRows(s, job, s.builds[job].rows, original);
       t == s.(saved := s.saved[job := snap], builds := s.builds[job := Noting(snap, s.sets)])
  }

  ghost predicate NoteStep(s: State, t: State, job: Job, n: Name) {
    && job in s.builds && s.builds[job].Noting? && n in s.sets
    && var b := s.builds[job];
       t == s.(builds := s.builds[job := Noting(b.snap, b.noted[n := s.sets[n]])])
  }

  ghost predicate NotedStep(s: State, t: State, job: Job) {
    && job in s.builds && s.builds[job].Noting?
    && t == s.(builds := s.builds[job := Handing(s.builds[job].snap, s.builds[job].noted, s.sets)])
  }

  ghost predicate HandStep(s: State, t: State, job: Job, n: Name) {
    && job in s.builds && s.builds[job].Handing? && n in s.sets
    && var b := s.builds[job];
       t == s.(builds := s.builds[job := Handing(b.snap, b.noted, b.handed[n := s.sets[n]])])
  }

  function MadeOf(reg: Registry, world: World, op: OpMeta, key: Option<Key>, b: Build): Pending
    requires b.Handing?
  {
    Pending(RecordedInputs(b.noted, op, key, b.snap), Output(reg, b.handed, world, op, key, b.snap))
  }

  // The body runs on what it was handed.
  ghost predicate BodyStep(reg: Registry, world: World, s: State, t: State, job: Job)
    requires reg.OpsIndexed()
  {
    && job in s.builds && s.builds[job].Handing? && job.op in reg.byOp
    && t == s.(builds := s.builds[job := Made(MadeOf(reg, world, reg.Op(job.op), job.key, s.builds[job]))])
  }

  ghost predicate CommitStep(reg: Registry, s: State, t: State, job: Job, fps: Name -> Print)
    requires reg.OpsIndexed()
  {
    && job in s.builds && s.builds[job].Made? && job.op in reg.byOp
    && Splits(reg.Op(job.op).produces, s.builds[job].pending.output)
    && var rows := BuiltRows(reg.Op(job.op), job.key, job.run, s.builds[job].pending, fps);
       t == s.(mats := s.mats + rows,
               history := s.history + (set c | c in rows :: (c, rows[c])), builds := s.builds - {job})
  }

  /** What is captured, cell by cell: the rows read, or what the original saved but for what this run has rebuilt. */
  lemma CaptureSays(reg: Registry, s: State, t: State, job: Job, original: Option<string>)
    requires reg.OpsIndexed() && CaptureStep(reg, s, t, job, original)
    ensures job in t.builds && t.builds[job].Noting? && job in t.saved && t.saved[job] == t.builds[job].snap
    ensures original.None? ==> t.builds[job].snap == s.builds[job].rows
    ensures original.Some? ==>
              var rows, snap, was := s.builds[job].rows, t.builds[job].snap, Job(original.value, job.op, job.key);
              && was in s.saved
              && forall d ::
                   if d in rows && rows[d].run == Some(job.run) then d in snap && snap[d] == rows[d]
                   else (d in snap <==> d in s.saved[was]) && (d in snap ==> snap[d] == s.saved[was][d])
  {
  }

  /** What a body makes: what was noted of the rows captured, and its output on what is handed over of the same rows. */
  lemma BodySays(reg: Registry, world: World, s: State, t: State, job: Job)
    requires reg.OpsIndexed() && BodyStep(reg, world, s, t, job)
    ensures job in t.builds && t.builds[job].Made?
    ensures var b, op, made := s.builds[job], reg.Op(job.op), t.builds[job].pending;
            && NotedDown(b.noted, op, job.key, b.snap, made.inputs)
            && exists handed, outside ::
                 HandedOver(b.handed, op, job.key, b.snap, handed) && SeesOutside(reg, op, b.snap, outside)
                 && made.output == world.body(op.name, job.key, handed, outside)
  {
    var b, op := s.builds[job], reg.Op(job.op);
    RecordedNotedDown(b.noted, op, job.key, b.snap);
    InputsHandedOver(b.handed, op, job.key, b.snap);
    var handed, outside := Inputs(b.handed, op, job.key, b.snap), Outside(reg, op, b.snap);
    assert HandedOver(b.handed, op, job.key, b.snap, handed) && SeesOutside(reg, op, b.snap, outside);
  }

  /** What is committed, cell by cell: a row for each asset of the op, and no other cell. */
  lemma CommitSays(reg: Registry, s: State, t: State, job: Job, fps: Name -> Print)
    requires reg.OpsIndexed() && CommitStep(reg, s, t, job, fps)
    ensures var op, made := reg.Op(job.op), s.builds[job].pending;
            && NamesEach(op.produces, made.output)
            && (exists rows :: Staged(op, job.key, job.run, fps, made.output, made.inputs, rows)
                               && (forall c :: c in t.mats <==> c in s.mats || c in rows)
                               && forall c :: c in t.mats ==> t.mats[c] == if c in rows then rows[c] else s.mats[c])
  {
    var op, made := reg.Op(job.op), s.builds[job].pending;
    SplitsIffNamesEach(op.produces, made.output);
    RowsStaged(op, job.key, job.run, fps, made.output, made.inputs);
    assert Staged(op, job.key, job.run, fps, made.output, made.inputs, BuiltRows(op, job.key, job.run, made, fps));
  }

  ghost predicate DropStep(s: State, t: State, job: Job) {
    t == s.(builds := s.builds - {job})
  }

  function Gone(was: Sets, now: Sets): Drops {
    set n, k | n in was && k in was[n] && n in now && k !in now[n] :: (n, k)
  }

  // Key sets change as they will, gaining keys with the clock and losing the oldest past a limit.
  ghost predicate TickStep(reg: Registry, s: State, t: State)
    requires reg.NamesIndexed()
  {
    SetsFor(reg, t.sets) && t == s.(sets := t.sets, dropped := s.dropped + Gone(s.sets, t.sets))
  }

  // A build goes on without touching the store.
  ghost predicate GoesOn(reg: Registry, world: World, s: State, t: State, job: Job)
    requires reg.OpsIndexed()
  {
    || BeginStep(reg, s, t, job)
    || (exists n :: ListStep(s, t, job, n))
    || (exists d :: ReadStep(s, t, job, d))
    || (exists original :: CaptureStep(reg, s, t, job, original))
    || (exists n :: NoteStep(s, t, job, n))
    || NotedStep(s, t, job)
    || (exists n :: HandStep(s, t, job, n))
    || BodyStep(reg, world, s, t, job)
    || DropStep(s, t, job)
  }

  /** The store is as it was, but for one build and what it saves. */
  ghost predicate OnlyBuild(s: State, t: State, job: Job) {
    && t.sets == s.sets && t.mats == s.mats && t.dropped == s.dropped && t.history == s.history
    && forall other :: other != job ==>
         (other in t.builds <==> other in s.builds) && (other in s.builds ==> t.builds[other] == s.builds[other])
  }

  lemma MovedOnly(s: State, t: State, job: Job, b: Build, saved: map<Job, Mats>)
    requires t == s.(builds := s.builds[job := b], saved := saved)
    ensures OnlyBuild(s, t, job)
  {
  }

  lemma CaptureMovesOnly(reg: Registry, s: State, t: State, job: Job, original: Option<string>)
    requires reg.OpsIndexed() && CaptureStep(reg, s, t, job, original)
    ensures OnlyBuild(s, t, job)
  {
    MovedOnly(s, t, job, t.builds[job], t.saved);
  }

  lemma BodyMovesOnly(reg: Registry, world: World, s: State, t: State, job: Job)
    requires reg.OpsIndexed() && BodyStep(reg, world, s, t, job)
    ensures OnlyBuild(s, t, job)
  {
    MovedOnly(s, t, job, t.builds[job], s.saved);
  }

  lemma ReadMovesOnly(s: State, t: State, job: Job, d: Cell)
    requires ReadStep(s, t, job, d)
    ensures OnlyBuild(s, t, job)
  {
  }

  lemma LookUpMovesOnly(s: State, t: State, job: Job, n: Name)
    requires ListStep(s, t, job, n) || NoteStep(s, t, job, n) || HandStep(s, t, job, n)
    ensures OnlyBuild(s, t, job)
  {
  }

  /** Going on, a build touches nothing but itself and what it saves. */
  lemma GoesOnFrame(reg: Registry, world: World, s: State, t: State, job: Job)
    requires reg.OpsIndexed() && GoesOn(reg, world, s, t, job)
    ensures OnlyBuild(s, t, job)
  {
    if n :| ListStep(s, t, job, n) {
      LookUpMovesOnly(s, t, job, n);
    } else if d :| ReadStep(s, t, job, d) {
      ReadMovesOnly(s, t, job, d);
    } else if original :| CaptureStep(reg, s, t, job, original) {
      CaptureMovesOnly(reg, s, t, job, original);
    } else if n :| NoteStep(s, t, job, n) {
      LookUpMovesOnly(s, t, job, n);
    } else if n :| HandStep(s, t, job, n) {
      LookUpMovesOnly(s, t, job, n);
    } else if BodyStep(reg, world, s, t, job) {
      BodyMovesOnly(reg, world, s, t, job);
    }
  }

  ghost predicate Next(reg: Registry, world: World, s: State, t: State)
    requires reg.Valid()
  {
    || (exists a, fp :: ProbeStep(reg, s, t, a, fp))
    || (exists job :: GoesOn(reg, world, s, t, job))
    || (exists job, fps :: CommitStep(reg, s, t, job, fps))
    || TickStep(reg, s, t)
    || t == s
  }

  ghost predicate Init(reg: Registry, s: State)
    requires reg.NamesIndexed()
  {
    SetsFor(reg, s.sets) && s == State(s.sets, {}, map[], {}, map[], map[])
  }

  // ----------------------------------------------------------- what every step keeps

  // A key its set has, or has had.
  ghost predicate Seen(s: State, n: Name, k: Key) {
    (n in s.sets && k in s.sets[n]) || (n, k) in s.dropped
  }

  ghost predicate AllSeen(s: State, sets: Sets) {
    forall n, k :: n in sets && k in sets[n] ==> Seen(s, n, k)
  }

  // Every captured key a mapping read has been one of its dep's.
  ghost predicate RowsSeen(s: State, op: OpMeta, rows: Mats) {
    forall dep, k :: dep in op.deps && Mapped(s.sets, op.maps, dep) && Cell(dep, Some(k)) in rows ==> Seen(s, dep, k)
  }

  // What was captured and is not noted is dropped.
  ghost predicate NotedOrDropped(s: State, op: OpMeta, snap: Mats, noted: Sets) {
    forall dep, k :: dep in op.deps && Mapped(s.sets, op.maps, dep) && dep in noted && Cell(dep, Some(k)) in snap ==>
      k in noted[dep] || (dep, k) in s.dropped
  }

  function Order(s: State, steady: bool): Option<Drops> {
    if steady then Some(s.dropped) else None
  }

  ghost predicate PendingBy(reg: Registry, world: World, history: History, noted: Sets, handed: Sets, snap: Mats,
                            op: OpMeta, key: Option<Key>, p: Pending) {
    && AllRecorded(history, snap)
    && p.inputs == RecordedInputs(noted, op, key, snap)
    && p.output == Output(reg, handed, world, op, key, snap)
  }

  ghost predicate PendingExplained(reg: Registry, world: World, history: History, sets: Sets, order: Option<Drops>,
                                   op: OpMeta, key: Option<Key>, p: Pending) {
    exists noted: Sets, handed: Sets, snap: Mats ::
      && noted.Keys == handed.Keys == sets.Keys
      && PendingBy(reg, world, history, noted, handed, snap, op, key, p)
      && (order.Some? ==> InOrder(order.value, noted, handed, op, snap))
  }

  /**
   * What is true of a build at each stage; the order in which it read key sets
   * only where dropped keys stay dropped.
   */
  ghost predicate BuildHonest(reg: Registry, world: World, s: State, steady: bool, op: OpMeta, key: Option<Key>,
                              b: Build) {
    match b
    case Reading(listed, asked, rows) =>
      listed.Keys == s.sets.Keys && rows.Keys <= asked && AllRecorded(s.history, rows) && (steady ==>
        AllSeen(s, listed))
    case Noting(snap, noted) =>
      && noted.Keys == s.sets.Keys && AllRecorded(s.history, snap)
      && (steady ==> RowsSeen(s, op, snap) && AllSeen(s, noted) && NotedOrDropped(s, op, snap, noted))
    case Handing(snap, noted, handed) =>
      && noted.Keys == handed.Keys == s.sets.Keys && AllRecorded(s.history, snap)
      && (steady ==> AllSeen(s, noted) && NotedOrDropped(s, op, snap, noted) && InOrder(s.dropped, noted, handed, op,
                                                                                        snap))
    case Made(pending) => PendingExplained(reg, world, s.history, s.sets, Order(s, steady), op, key, pending)
  }

  ghost predicate BuildsHonest(reg: Registry, world: World, s: State, steady: bool)
    requires reg.OpsIndexed()
  {
    forall job :: job in s.builds ==>
      job.op in reg.byOp && BuildHonest(reg, world, s, steady, reg.Op(job.op), job.key, s.builds[job])
  }

  ghost predicate SavedHonest(reg: Registry, s: State, steady: bool)
    requires reg.OpsIndexed()
  {
    forall job :: job in s.saved ==>
      job.op in reg.byOp && AllRecorded(s.history, s.saved[job]) && (steady ==>
        RowsSeen(s, reg.Op(job.op), s.saved[job]))
  }

  ghost predicate Inv(reg: Registry, world: World, s: State, steady: bool)
    requires reg.Valid()
  {
    && SetsFor(reg, s.sets)
    && Honest(reg, world, s.history, s.sets, Order(s, steady), s.mats)
    && SavedHonest(reg, s, steady) && BuildsHonest(reg, world, s, steady)
  }

  // ----------------------------------------------------------- facts stay as the store goes on

  ghost predicate Later(order: Option<Drops>, order': Option<Drops>) {
    order'.Some? ==> order.Some? && order.value <= order'.value
  }

  lemma InOrderStays(dropped: Drops, dropped': Drops, noted: Sets, handed: Sets, op: OpMeta, snap: Mats)
    requires InOrder(dropped, noted, handed, op, snap) && dropped <= dropped'
    ensures InOrder(dropped', noted, handed, op, snap)
  {
    forall dep, k | dep in op.deps && Mapped(noted, op.maps, dep) && dep in handed
      ensures KeyInOrder(dropped', noted, handed, snap, dep, k)
    {
      assert KeyInOrder(dropped, noted, handed, snap, dep, k);
    }
  }

  lemma ExplainedStays(reg: Registry, world: World, h: History, h': History, sets: Sets, sets': Sets,
                       order: Option<Drops>, order': Option<Drops>, c: Cell, row: Mat)
    requires Explained(reg, world, h, sets, order, c, row) && h <= h' && sets.Keys == sets'.Keys && Later(order, order')
    ensures Explained(reg, world, h', sets', order', c, row)
  {
    var noted: Sets, handed: Sets, snap: Mats :|
      && noted.Keys == handed.Keys == sets.Keys
      && ExplainedBy(reg, world, h, noted, handed, snap, c, row)
      && (order.Some? ==> InOrder(order.value, noted, handed, reg.OpFor(c.asset), snap));
    if order'.Some? {
      InOrderStays(order.value, order'.value, noted, handed, reg.OpFor(c.asset), snap);
    }
    assert ExplainedBy(reg, world, h', noted, handed, snap, c, row);
  }

  lemma PendingStays(reg: Registry, world: World, h: History, h': History, sets: Sets, sets': Sets,
                     order: Option<Drops>, order': Option<Drops>, op: OpMeta, key: Option<Key>, p: Pending)
    requires PendingExplained(reg, world, h, sets, order, op, key, p) && h <= h' && sets.Keys == sets'.Keys
    requires Later(order, order')
    ensures PendingExplained(reg, world, h', sets', order', op, key, p)
  {
    var noted: Sets, handed: Sets, snap: Mats :|
      && noted.Keys == handed.Keys == sets.Keys
      && PendingBy(reg, world, h, noted, handed, snap, op, key, p)
      && (order.Some? ==> InOrder(order.value, noted, handed, op, snap));
    if order'.Some? {
      InOrderStays(order.value, order'.value, noted, handed, op, snap);
    }
    assert PendingBy(reg, world, h', noted, handed, snap, op, key, p);
  }

  // The store has gone on: more rows recorded, more keys seen.
  ghost predicate GoneOn(s: State, t: State) {
    && s.history <= t.history && s.sets.Keys == t.sets.Keys && s.dropped <= t.dropped
    && forall n, k :: Seen(s, n, k) ==> Seen(t, n, k)
  }

  lemma SeenStays(s: State, t: State, op: OpMeta, rows: Mats, sets: Sets)
    requires GoneOn(s, t)
    ensures RowsSeen(s, op, rows) ==> RowsSeen(t, op, rows)
    ensures AllSeen(s, sets) ==> AllSeen(t, sets)
    ensures NotedOrDropped(s, op, rows, sets) ==> NotedOrDropped(t, op, rows, sets)
  {
    if RowsSeen(s, op, rows) {
      forall dep, k | dep in op.deps && Mapped(t.sets, op.maps, dep) && Cell(dep, Some(k)) in rows
        ensures Seen(t, dep, k)
      {
        assert Seen(s, dep, k);
      }
    }
  }

  lemma BuildStays(reg: Registry, world: World, s: State, t: State, steady: bool, op: OpMeta, key: Option<Key>,
                   b: Build)
    requires GoneOn(s, t) && BuildHonest(reg, world, s, steady, op, key, b)
    ensures BuildHonest(reg, world, t, steady, op, key, b)
  {
    match b
    case Reading(listed, asked, rows) => SeenStays(s, t, op, rows, listed);
    case Noting(snap, noted) => SeenStays(s, t, op, snap, noted);
    case Handing(snap, noted, handed) =>
      SeenStays(s, t, op, snap, noted);
      if steady {
        InOrderStays(s.dropped, t.dropped, noted, handed, op, snap);
      }
    case Made(p) =>
      PendingStays(reg, world, s.history, t.history, s.sets, t.sets, Order(s, steady), Order(t, steady), op, key, p);
  }

  /** Everything recorded, saved and under way stays as it was said to be as the store goes on. */
  lemma RowsStay(reg: Registry, world: World, s: State, t: State, steady: bool)
    requires reg.Valid() && Inv(reg, world, s, steady) && GoneOn(s, t)
    ensures forall c, row :: (c, row) in s.history && c.asset in reg.byName && !reg.IsSource(c.asset) ==>
              Explained(reg, world, t.history, t.sets, Order(t, steady), c, row)
  {
    forall c, row | (c, row) in s.history && c.asset in reg.byName && !reg.IsSource(c.asset)
      ensures Explained(reg, world, t.history, t.sets, Order(t, steady), c, row)
    {
      ExplainedStays(reg, world, s.history, t.history, s.sets, t.sets, Order(s, steady), Order(t, steady), c, row);
    }
  }

  lemma BuildsStay(reg: Registry, world: World, s: State, t: State, steady: bool)
    requires reg.OpsIndexed() && BuildsHonest(reg, world, s, steady) && GoneOn(s, t)
    requires forall job :: job in t.builds ==> job in s.builds && t.builds[job] == s.builds[job]
    ensures BuildsHonest(reg, world, t, steady)
  {
    forall job | job in t.builds
      ensures job.op in reg.byOp && BuildHonest(reg, world, t, steady, reg.Op(job.op), job.key, t.builds[job])
    {
      BuildStays(reg, world, s, t, steady, reg.Op(job.op), job.key, s.builds[job]);
    }
  }

  lemma SavedStays(reg: Registry, s: State, t: State, steady: bool)
    requires reg.OpsIndexed() && SavedHonest(reg, s, steady) && GoneOn(s, t) && t.saved == s.saved
    ensures SavedHonest(reg, t, steady)
  {
    forall job | job in t.saved
      ensures AllRecorded(t.history, t.saved[job]) && (steady ==> RowsSeen(t, reg.Op(job.op), t.saved[job]))
    {
      SeenStays(s, t, reg.Op(job.op), s.saved[job], map[]);
    }
  }

  // ----------------------------------------------------------- each step

  lemma ProbeKeepsInv(reg: Registry, world: World, s: State, t: State, steady: bool, a: Name, fp: Print)
    requires reg.Valid() && Inv(reg, world, s, steady) && ProbeStep(reg, s, t, a, fp)
    ensures Inv(reg, world, t, steady)
  {
    assert GoneOn(s, t);
    RowsStay(reg, world, s, t, steady);
    BuildsStay(reg, world, s, t, steady);
    SavedStays(reg, s, t, steady);
  }

  lemma TickGoesOn(reg: Registry, s: State, t: State)
    requires reg.NamesIndexed() && SetsFor(reg, s.sets) && TickStep(reg, s, t)
    ensures GoneOn(s, t)
  {
    forall n, k | Seen(s, n, k) ensures Seen(t, n, k) {
      if n in s.sets && k in s.sets[n] && !(n in t.sets && k in t.sets[n]) {
        assert (n, k) in Gone(s.sets, t.sets);
      }
    }
  }

  lemma TickKeepsInv(reg: Registry, world: World, s: State, t: State, steady: bool)
    requires reg.Valid() && Inv(reg, world, s, steady) && TickStep(reg, s, t)
    ensures Inv(reg, world, t, steady)
  {
    TickGoesOn(reg, s, t);
    RowsStay(reg, world, s, t, steady);
    BuildsStay(reg, world, s, t, steady);
    SavedStays(reg, s, t, steady);
  }

  // One build moves on to another stage.
  lemma OneBuildKeepsInv(reg: Registry, world: World, s: State, t: State, steady: bool, job: Job)
    requires reg.Valid() && Inv(reg, world, s, steady) && job.op in reg.byOp && job in t.builds
    requires t == s.(builds := s.builds[job := t.builds[job]])
    requires BuildHonest(reg, world, s, steady, reg.Op(job.op), job.key, t.builds[job])
    ensures Inv(reg, world, t, steady)
  {
    assert GoneOn(s, t);
    SavedStays(reg, s, t, steady);
    forall other | other in t.builds
      ensures other.op in reg.byOp && BuildHonest(reg, world, t, steady, reg.Op(other.op), other.key, t.builds[other])
    {
      if other == job {
        BuildStays(reg, world, s, t, steady, reg.Op(job.op), job.key, t.builds[job]);
      } else {
        BuildStays(reg, world, s, t, steady, reg.Op(other.op), other.key, s.builds[other]);
      }
    }
  }

  lemma SnapshotRecorded(history: History, current: Mats, saved: Mats, run: string)
    requires AllRecorded(history, current) && AllRecorded(history, saved)
    ensures AllRecorded(history, ReplaySnapshot(saved, current, run))
  {
    var rebuilt := map d | d in current && current[d].run == Some(run) :: current[d];
    assert AllRecorded(history, rebuilt);
    assert ReplaySnapshot(saved, current, run) == saved + rebuilt;
  }

  lemma SnapshotWithin(saved: Mats, current: Mats, run: string, d: Cell)
    requires d in ReplaySnapshot(saved, current, run)
    ensures d in saved || d in current
  {
  }

  // Rows read at listed keys are at keys their deps have had.
  lemma ReadRowsSeen(s: State, op: OpMeta, key: Option<Key>, listed: Sets, asked: set<Cell>, rows: Mats)
    requires AllSeen(s, listed) && listed.Keys == s.sets.Keys && ReadAll(listed, op, key, asked) && rows.Keys <= asked
    ensures RowsSeen(s, op, rows)
  {
    forall dep, k | dep in op.deps && Mapped(s.sets, op.maps, dep) && Cell(dep, Some(k)) in rows
      ensures Seen(s, dep, k)
    {
      assert Captures(listed, op, key, Cell(dep, Some(k)));
      ReadHeld(listed, op.maps, dep, key, k);
    }
  }

  lemma CapturedHonest(reg: Registry, world: World, s: State, steady: bool, job: Job, original: Option<string>)
    requires reg.OpsIndexed() && job.op in reg.byOp && job in s.builds && s.builds[job].Reading?
    requires BuildHonest(reg, world, s, steady, reg.Op(job.op), job.key, s.builds[job]) && SavedHonest(reg, s, steady)
    requires ReadAll(s.builds[job].listed, reg.Op(job.op), job.key, s.builds[job].asked)
    requires original.Some? ==> Job(original.value, job.op, job.key) in s.saved
    ensures AllRecorded(s.history, CapturedRows(s, job, s.builds[job].rows, original))
    ensures steady ==> RowsSeen(s, reg.Op(job.op), CapturedRows(s, job, s.builds[job].rows, original))
  {
    var op, rows := reg.Op(job.op), s.builds[job].rows;
    if steady {
      ReadRowsSeen(s, op, job.key, s.builds[job].listed, s.builds[job].asked, rows);
    }
    if original.Some? {
      var saved := s.saved[Job(original.value, job.op, job.key)];
      SnapshotRecorded(s.history, rows, saved, job.run);
      if steady {
        forall dep, k
          | dep in op.deps && Mapped(s.sets, op.maps, dep) && Cell(dep, Some(k)) in ReplaySnapshot(saved, rows, job.run)
          ensures Seen(s, dep, k)
        {
          SnapshotWithin(saved, rows, job.run, Cell(dep, Some(k)));
        }
      }
    }
  }

  // Noted as of now, what was captured is noted or dropped.
  lemma NotedNow(s: State, op: OpMeta, snap: Mats)
    requires RowsSeen(s, op, snap)
    ensures AllSeen(s, s.sets) && NotedOrDropped(s, op, snap, s.sets)
  {
  }

  lemma CaptureKeepsInv(reg: Registry, world: World, s: State, t: State, steady: bool, job: Job,
                        original: Option<string>)
    requires reg.Valid() && Inv(reg, world, s, steady) && CaptureStep(reg, s, t, job, original)
    ensures Inv(reg, world, t, steady)
  {
    var snap := CapturedRows(s, job, s.builds[job].rows, original);
    CapturedHonest(reg, world, s, steady, job, original);
    if steady {
      NotedNow(s, reg.Op(job.op), snap);
    }
    var saving := s.(saved := s.saved[job := snap]);
    SavingKeepsInv(reg, world, s, saving, steady, job, snap);
    BuildStays(reg, world, s, saving, steady, reg.Op(job.op), job.key, Noting(snap, s.sets));
    OneBuildKeepsInv(reg, world, saving, t, steady, job);
  }

  lemma SavingKeepsInv(reg: Registry, world: World, s: State, t: State, steady: bool, job: Job, snap: Mats)
    requires reg.Valid() && Inv(reg, world, s, steady) && t == s.(saved := s.saved[job := snap]) && job.op in reg.byOp
    requires AllRecorded(s.history, snap) && (steady ==> RowsSeen(s, reg.Op(job.op), snap))
    ensures Inv(reg, world, t, steady)
  {
    assert GoneOn(s, t);
    BuildsStay(reg, world, s, t, steady);
    forall other | other in t.saved
      ensures other.op in reg.byOp && AllRecorded(t.history, t.saved[other])
              && (steady ==> RowsSeen(t, reg.Op(other.op), t.saved[other]))
    {
      SeenStays(s, t, reg.Op(other.op), t.saved[other], map[]);
    }
  }

  lemma BeginKeepsInv(reg: Registry, world: World, s: State, t: State, steady: bool, job: Job)
    requires reg.Valid() && Inv(reg, world, s, steady) && BeginStep(reg, s, t, job)
    ensures Inv(reg, world, t, steady)
  {
    OneBuildKeepsInv(reg, world, s, t, steady, job);
  }

  lemma ListHonest(reg: Registry, world: World, s: State, steady: bool, op: OpMeta, key: Option<Key>, b: Build, n: Name)
    requires b.Reading? && n in s.sets && BuildHonest(reg, world, s, steady, op, key, b)
    ensures BuildHonest(reg, world, s, steady, op, key, Reading(b.listed[n := s.sets[n]], b.asked, b.rows))
  {
  }

  lemma ReadHonest(reg: Registry, world: World, s: State, steady: bool, op: OpMeta, key: Option<Key>, b: Build, d: Cell)
    requires b.Reading? && AllRecorded(s.history, s.mats) && BuildHonest(reg, world, s, steady, op, key, b)
    ensures BuildHonest(reg, world, s, steady, op, key,
                        Reading(b.listed, b.asked + {d}, if d in s.mats then b.rows[d := s.mats[d]] else b.rows))
  {
  }

  lemma ListKeepsInv(reg: Registry, world: World, s: State, t: State, steady: bool, job: Job, n: Name)
    requires reg.Valid() && Inv(reg, world, s, steady) && ListStep(s, t, job, n)
    ensures Inv(reg, world, t, steady)
  {
    ListHonest(reg, world, s, steady, reg.Op(job.op), job.key, s.builds[job], n);
    OneBuildKeepsInv(reg, world, s, t, steady, job);
  }

  lemma ReadKeepsInv(reg: Registry, world: World, s: State, t: State, steady: bool, job: Job, d: Cell)
    requires reg.Valid() && Inv(reg, world, s, steady) && ReadStep(s, t, job, d)
    ensures Inv(reg, world, t, steady)
  {
    ReadHonest(reg, world, s, steady, reg.Op(job.op), job.key, s.builds[job], d);
    OneBuildKeepsInv(reg, world, s, t, steady, job);
  }

  lemma NoteHonest(s: State, op: OpMeta, snap: Mats, noted: Sets, n: Name)
    requires noted.Keys == s.sets.Keys && n in s.sets
    requires RowsSeen(s, op, snap) && AllSeen(s, noted) && NotedOrDropped(s, op, snap, noted)
    ensures AllSeen(s, noted[n := s.sets[n]]) && NotedOrDropped(s, op, snap, noted[n := s.sets[n]])
  {
  }

  // Handed over as of now, a key is noted and dropped since, or never came back.
  lemma KeyNowInOrder(s: State, op: OpMeta, snap: Mats, noted: Sets, handed: Sets, n: Name, k: Key)
    requires NoneBack(s.sets, s.dropped) && noted.Keys == s.sets.Keys && n in s.sets && n in handed
    requires handed[n] == s.sets[n]
    requires AllSeen(s, noted) && NotedOrDropped(s, op, snap, noted) && n in op.deps && Mapped(noted, op.maps, n)
    ensures KeyInOrder(s.dropped, noted, handed, snap, n, k)
  {
    assert k in noted[n] ==> Seen(s, n, k);
  }

  lemma HandInOrder(s: State, op: OpMeta, snap: Mats, noted: Sets, handed: Sets, n: Name, handed': Sets)
    requires NoneBack(s.sets, s.dropped) && noted.Keys == handed.Keys == s.sets.Keys && n in s.sets
    requires AllSeen(s, noted) && NotedOrDropped(s, op, snap, noted) && InOrder(s.dropped, noted, handed, op, snap)
    requires handed' == handed[n := s.sets[n]]
    ensures InOrder(s.dropped, noted, handed', op, snap)
  {
    forall dep, k | dep in op.deps && Mapped(noted, op.maps, dep) && dep in handed'
      ensures KeyInOrder(s.dropped, noted, handed', snap, dep, k)
    {
      if dep == n {
        KeyNowInOrder(s, op, snap, noted, handed', n, k);
      } else {
        assert KeyInOrder(s.dropped, noted, handed, snap, dep, k);
      }
    }
  }

  lemma HandingInOrder(s: State, op: OpMeta, snap: Mats, noted: Sets, handed: Sets)
    requires NoneBack(s.sets, s.dropped) && noted.Keys == s.sets.Keys && handed == s.sets
    requires AllSeen(s, noted) && NotedOrDropped(s, op, snap, noted)
    ensures InOrder(s.dropped, noted, handed, op, snap)
  {
    forall dep, k | dep in op.deps && Mapped(noted, op.maps, dep) && dep in handed
      ensures KeyInOrder(s.dropped, noted, handed, snap, dep, k)
    {
      KeyNowInOrder(s, op, snap, noted, handed, dep, k);
    }
  }

  lemma NoteIsHonest(reg: Registry, world: World, s: State, steady: bool, op: OpMeta, key: Option<Key>, b: Build,
                     n: Name)
    requires b.Noting? && n in s.sets && BuildHonest(reg, world, s, steady, op, key, b)
    ensures BuildHonest(reg, world, s, steady, op, key, Noting(b.snap, b.noted[n := s.sets[n]]))
  {
    if steady {
      NoteHonest(s, op, b.snap, b.noted, n);
    }
  }

  lemma NotedIsHonest(reg: Registry, world: World, s: State, steady: bool, op: OpMeta, key: Option<Key>, b: Build)
    requires b.Noting? && BuildHonest(reg, world, s, steady, op, key, b) && (steady ==> NoneBack(s.sets, s.dropped))
    ensures BuildHonest(reg, world, s, steady, op, key, Handing(b.snap, b.noted, s.sets))
  {
    if steady {
      HandingInOrder(s, op, b.snap, b.noted, s.sets);
    }
  }

  lemma HandIsHonest(reg: Registry, world: World, s: State, steady: bool, op: OpMeta, key: Option<Key>, b: Build,
                     n: Name)
    requires b.Handing? && n in s.sets && BuildHonest(reg, world, s, steady, op, key, b)
    requires steady ==> NoneBack(s.sets, s.dropped)
    ensures BuildHonest(reg, world, s, steady, op, key, Handing(b.snap, b.noted, b.handed[n := s.sets[n]]))
  {
    if steady {
      HandInOrder(s, op, b.snap, b.noted, b.handed, n, b.handed[n := s.sets[n]]);
    }
  }

  lemma BodyIsHonest(reg: Registry, world: World, s: State, steady: bool, op: OpMeta, key: Option<Key>, b: Build)
    requires b.Handing? && BuildHonest(reg, world, s, steady, op, key, b)
    ensures BuildHonest(reg, world, s, steady, op, key, Made(MadeOf(reg, world, op, key, b)))
  {
    assert PendingBy(reg, world, s.history, b.noted, b.handed, b.snap, op, key, MadeOf(reg, world, op, key, b));
  }

  lemma NoteKeepsInv(reg: Registry, world: World, s: State, t: State, steady: bool, job: Job, n: Name)
    requires reg.Valid() && Inv(reg, world, s, steady) && NoteStep(s, t, job, n)
    ensures Inv(reg, world, t, steady)
  {
    NoteIsHonest(reg, world, s, steady, reg.Op(job.op), job.key, s.builds[job], n);
    OneBuildKeepsInv(reg, world, s, t, steady, job);
  }

  lemma NotedKeepsInv(reg: Registry, world: World, s: State, t: State, steady: bool, job: Job)
    requires reg.Valid() && Inv(reg, world, s, steady) && NotedStep(s, t, job)
    requires steady ==> NoneBack(s.sets, s.dropped)
    ensures Inv(reg, world, t, steady)
  {
    NotedIsHonest(reg, world, s, steady, reg.Op(job.op), job.key, s.builds[job]);
    OneBuildKeepsInv(reg, world, s, t, steady, job);
  }

  lemma HandKeepsInv(reg: Registry, world: World, s: State, t: State, steady: bool, job: Job, n: Name)
    requires reg.Valid() && Inv(reg, world, s, steady) && HandStep(s, t, job, n)
    requires steady ==> NoneBack(s.sets, s.dropped)
    ensures Inv(reg, world, t, steady)
  {
    HandIsHonest(reg, world, s, steady, reg.Op(job.op), job.key, s.builds[job], n);
    OneBuildKeepsInv(reg, world, s, t, steady, job);
  }

  lemma BodyKeepsInv(reg: Registry, world: World, s: State, t: State, steady: bool, job: Job)
    requires reg.Valid() && Inv(reg, world, s, steady) && BodyStep(reg, world, s, t, job)
    ensures Inv(reg, world, t, steady)
  {
    BodyIsHonest(reg, world, s, steady, reg.Op(job.op), job.key, s.builds[job]);
    OneBuildKeepsInv(reg, world, s, t, steady, job);
  }

  lemma GoesOnKeepsInv(reg: Registry, world: World, s: State, t: State, steady: bool, job: Job)
    requires reg.Valid() && Inv(reg, world, s, steady) && (steady ==> NoneBack(s.sets, s.dropped))
    requires GoesOn(reg, world, s, t, job)
    ensures Inv(reg, world, t, steady)
  {
    if BeginStep(reg, s, t, job) {
      BeginKeepsInv(reg, world, s, t, steady, job);
    } else if n :| ListStep(s, t, job, n) {
      ListKeepsInv(reg, world, s, t, steady, job, n);
    } else if d :| ReadStep(s, t, job, d) {
      ReadKeepsInv(reg, world, s, t, steady, job, d);
    } else if original :| CaptureStep(reg, s, t, job, original) {
      CaptureKeepsInv(reg, world, s, t, steady, job, original);
    } else if n :| NoteStep(s, t, job, n) {
      NoteKeepsInv(reg, world, s, t, steady, job, n);
    } else if NotedStep(s, t, job) {
      NotedKeepsInv(reg, world, s, t, steady, job);
    } else if n :| HandStep(s, t, job, n) {
      HandKeepsInv(reg, world, s, t, steady, job, n);
    } else if BodyStep(reg, world, s, t, job) {
      BodyKeepsInv(reg, world, s, t, steady, job);
    } else {
      DropKeepsInv(reg, world, s, t, steady, job);
    }
  }

  lemma DropKeepsInv(reg: Registry, world: World, s: State, t: State, steady: bool, job: Job)
    requires reg.Valid() && Inv(reg, world, s, steady) && DropStep(s, t, job)
    ensures Inv(reg, world, t, steady)
  {
    assert GoneOn(s, t);
    BuildsStay(reg, world, s, t, steady);
    SavedStays(reg, s, t, steady);
  }

  /** A committed row is explained by the rows its build captured. */
  lemma CommitExplains(reg: Registry, world: World, h: History, sets: Sets, order: Option<Drops>, job: Job, p: Pending,
                       fps: Name -> Print, c: Cell)
    requires reg.Valid() && job.op in reg.byOp && c in OpCells(reg.Op(job.op), job.key)
    requires PendingExplained(reg, world, h, sets, order, reg.Op(job.op), job.key, p)
    ensures Explained(reg, world, h, sets, order, c, BuiltRow(reg.Op(job.op), job.run, p, fps, c))
  {
    var op := reg.Op(job.op);
    assert reg.ValidOp(op) && Makes(op, reg.Meta(c.asset));
    assert reg.OpFor(c.asset) == op;
    var noted: Sets, handed: Sets, snap: Mats :|
      && noted.Keys == handed.Keys == sets.Keys
      && PendingBy(reg, world, h, noted, handed, snap, op, job.key, p)
      && (order.Some? ==> InOrder(order.value, noted, handed, op, snap));
    assert ExplainedBy(reg, world, h, noted, handed, snap, c, BuiltRow(op, job.run, p, fps, c));
  }

  lemma CommitRecords(reg: Registry, world: World, s: State, t: State, steady: bool, job: Job, fps: Name -> Print)
    requires reg.Valid() && Inv(reg, world, s, steady) && CommitStep(reg, s, t, job, fps)
    ensures Honest(reg, world, t.history, t.sets, Order(t, steady), t.mats)
  {
    var op, p := reg.Op(job.op), s.builds[job].pending;
    var rows := BuiltRows(op, job.key, job.run, p, fps);
    assert GoneOn(s, t);
    RowsStay(reg, world, s, t, steady);
    assert BuildHonest(reg, world, s, steady, op, job.key, s.builds[job]);
    PendingStays(reg, world, s.history, t.history, s.sets, t.sets, Order(s, steady), Order(t, steady), op, job.key, p);
    forall c, row | (c, row) in t.history && c.asset in reg.byName && !reg.IsSource(c.asset)
      ensures Explained(reg, world, t.history, t.sets, Order(t, steady), c, row)
    {
      if (c, row) !in s.history {
        assert c in rows && row == rows[c];
        CommitExplains(reg, world, t.history, t.sets, Order(t, steady), job, p, fps, c);
      }
    }
    forall c | c in t.mats ensures (c, t.mats[c]) in t.history {
      if c in rows {
        assert (c, rows[c]) in t.history;
      }
    }
  }

  lemma CommitKeepsInv(reg: Registry, world: World, s: State, t: State, steady: bool, job: Job, fps: Name -> Print)
    requires reg.Valid() && Inv(reg, world, s, steady) && CommitStep(reg, s, t, job, fps)
    ensures Inv(reg, world, t, steady)
  {
    assert GoneOn(s, t);
    CommitRecords(reg, world, s, t, steady, job, fps);
    BuildsStay(reg, world, s, t, steady);
    SavedStays(reg, s, t, steady);
  }

  /** Every step keeps every row explained; and in the order key sets were read, where dropped keys stay dropped. */
  lemma NextKeepsInv(reg: Registry, world: World, s: State, t: State, steady: bool)
    requires reg.Valid() && Inv(reg, world, s, steady) && Next(reg, world, s, t)
    requires steady ==> NoneBack(s.sets, s.dropped)
    ensures Inv(reg, world, t, steady)
  {
    if a, fp :| ProbeStep(reg, s, t, a, fp) {
      ProbeKeepsInv(reg, world, s, t, steady, a, fp);
    } else if job :| GoesOn(reg, world, s, t, job) {
      GoesOnKeepsInv(reg, world, s, t, steady, job);
    } else if job, fps :| CommitStep(reg, s, t, job, fps) {
      CommitKeepsInv(reg, world, s, t, steady, job, fps);
    } else if TickStep(reg, s, t) {
      TickKeepsInv(reg, world, s, t, steady);
    }
  }

  // ----------------------------------------------------------- over whole runs

  ghost predicate Behaviour(reg: Registry, world: World, trace: seq<State>)
    requires reg.Valid()
  {
    trace != [] && Init(reg, trace[0]) && forall i :: 0 <= i < |trace| - 1 ==> Next(reg, world, trace[i], trace[i + 1])
  }

  /** Up to a moment, no key set has taken back a key it dropped. */
  ghost predicate Steady(trace: seq<State>, i: nat)
    requires i < |trace|
  {
    forall j :: 0 <= j <= i ==> NoneBack(trace[j].sets, trace[j].dropped)
  }

  lemma {:induction false} InvThroughout(reg: Registry, world: World, trace: seq<State>, i: nat, steady: bool)
    requires reg.Valid() && Behaviour(reg, world, trace) && i < |trace| && (steady ==> Steady(trace, i))
    ensures Inv(reg, world, trace[i], steady)
  {
    if i > 0 {
      InvThroughout(reg, world, trace, i - 1, steady);
      assert Next(reg, world, trace[i - 1], trace[i - 1 + 1]);
      NextKeepsInv(reg, world, trace[i - 1], trace[i], steady);
    }
  }

  /**
   * Memoised equals clean, in every state of every interleaving of probes,
   * builds, replays and changes of key sets between and within builds, as long
   * as fingerprints tell values apart, no dropped key has come back, and no row
   * under the cell recorded a key that has been dropped since.
   */
  lemma MemoisedEqualsClean(reg: Registry, world: World, trace: seq<State>, i: nat, c: Cell)
    requires reg.Valid() && Behaviour(reg, world, trace) && i < |trace| && Steady(trace, i) && c.asset in reg.byName
    requires Faithful(trace[i].history) && c in OwnCells(trace[i].sets, c.asset)
    requires Fresh(reg, trace[i].sets, trace[i].mats, c) && NothingDroppedUnder(reg, trace[i].sets, trace[i].mats, c)
    ensures c in CleanBuild(reg, trace[i].sets, world, trace[i].mats)
    ensures trace[i].mats[c].value == CleanBuild(reg, trace[i].sets, world, trace[i].mats)[c].value
  {
    InvThroughout(reg, world, trace, i, true);
    FreshIsClean(reg, world, trace[i].history, trace[i].sets, trace[i].dropped, trace[i].mats, c);
  }

  /**
   * In every reachable state, whatever key sets do, a fresh cell with clean reads
   * has captured rows and two readings of the key sets that explain its row; the
   * inputs its body was given are a clean build's exactly when the captured keys
   * handed over are the ones read now, which is exactly when its row recorded no
   * dropped key, wherever it was handed what it recorded.
   */
  lemma DroppedKeyGivesOtherInputs(reg: Registry, world: World, trace: seq<State>, i: nat, c: Cell)
    returns (noted: Sets, handed: Sets, snap: Mats)
    requires reg.Valid() && Behaviour(reg, world, trace) && i < |trace| && c.asset in reg.byName
    requires !reg.IsSource(c.asset)
    requires Faithful(trace[i].history) && Fresh(reg, trace[i].sets, trace[i].mats, c)
    requires CleanUpstream(reg, trace[i].sets, trace[i].mats, CleanBuild(reg, trace[i].sets, world, trace[i].mats), c)
    ensures GivenBy(reg, world, trace[i].history, trace[i].sets, trace[i].mats, c, noted, handed, snap)
    ensures GivenAsClean(reg, world, trace[i].sets, trace[i].mats, c, handed, snap)
            <==> SameHanded(handed, trace[i].sets, reg.OpFor(c.asset), c.key, snap)
    ensures GivenAsRecorded(reg, c, noted, handed, snap) <==> SameHanded(noted, handed, reg.OpFor(c.asset), c.key, snap)
    ensures GivenAsRecorded(reg, c, noted, handed, snap) ==>
              (GivenAsClean(reg, world, trace[i].sets, trace[i].mats, c, handed, snap)
               <==> NothingDropped(reg, trace[i].sets, trace[i].mats, c))
  {
    InvThroughout(reg, world, trace, i, false);
    var sets, mats, history := trace[i].sets, trace[i].mats, trace[i].history;
    assert (c, mats[c]) in history;
    noted, handed, snap :|
      noted.Keys == handed.Keys == sets.Keys && ExplainedBy(reg, world, history, noted, handed, snap, c, mats[c]);
    GivenCleanIff(reg, world, history, sets, mats, c, noted, handed, snap);
  }
}
