/**
 * Backfills with everything going on at once (src/backfill.rs, src/store.rs): any
 * number of passes, starts and cancels over one store, each reading a record,
 * looking at its last run, launching a chunk and recording it at different
 * moments, or never getting to.
 */
module BackfillRuns {
  import opened Prelude
  import opened Assets
  import opened Backfills

  /** One handling of one record: what it read, and how far it has come. */
  datatype Errand =
    | Looking(id: nat, read: Backfill)
    | Sending(id: nat, read: Backfill)
    | Recording(id: nat, read: Backfill, run: RunId)
    | Closing(id: nat, status: BackfillStatus)

  /** The store, the errands under way, and which backfill each run was launched for. */
  datatype World = World(store: Store, errands: map<nat, Errand>, sent: map<RunId, nat>)

  datatype Event =
    | Create(asset: Name, keys: seq<Key>)
    | Read(pid: nat, id: nat)
    | First(pid: nat, id: nat)
    | Look(pid: nat)
    | Launch(pid: nat, answer: Launch, run: RunId)
    | Record(pid: nat)
    | Finish(pid: nat)
    | Lose(pid: nat)
    | Cancel(id: nat)
    | Ends(run: RunId, status: RunStatus)
    | Drops(run: RunId)

  function Put(errands: map<nat, Errand>, pid: nat, e: Option<Errand>): map<nat, Errand> {
    if e.Some? then errands[pid := e.value] else errands - {pid}
  }

  /** What a pass does next about a record it has read, going by its last run. */
  function AfterLook(s: Store, id: nat, read: Backfill): Option<Errand> {
    if read.runIds == [] then Some(Sending(id, read))
    else
      match LastStatus(s, read)
      case Queued => None
      case Running => None
      case Success => Some(if read.launched < |read.keys| then Sending(id, read) else Closing(id, Complete))
      case Failure => Some(Closing(id, Failed))
      case Cancelled => Some(Closing(id, Stopped))
  }

  function Next(limits: Limits, read: Backfill): seq<Key> {
    Chunk(read, limits(read.asset))
  }

  predicate GoingAt(w: World, id: nat) {
    id < |w.store.records| && w.store.records[id].status.Going?
  }

  // A start reads the record it has just made, and sends whatever its last run did.
  predicate Enabled(w: World, e: Event) {
    match e
    case Read(pid, id) => pid !in w.errands && GoingAt(w, id)
    case First(pid, id) => pid !in w.errands && GoingAt(w, id)
    case Look(pid) => pid in w.errands && w.errands[pid].Looking?
    case Launch(pid, _, run) => pid in w.errands && w.errands[pid].Sending? && run !in w.store.runs
    case Record(pid) => pid in w.errands && w.errands[pid].Recording? && w.errands[pid].id < |w.store.records|
    case Finish(pid) => pid in w.errands && w.errands[pid].Closing? && w.errands[pid].id < |w.store.records|
    case Lose(pid) => pid in w.errands
    case _ => true
  }

  function Launched(limits: Limits, w: World, pid: nat, answer: Launch, run: RunId): World
    requires pid in w.errands && w.errands[pid].Sending?
  {
    var id, read := w.errands[pid].id, w.errands[pid].read;
    if Next(limits, read) == [] then w.(errands := Put(w.errands, pid, Some(Closing(id, Complete))))
    else if !answer.Took? then w.(errands := Put(w.errands, pid, None))
    else
      World(w.store.(runs := w.store.runs[run := Run(Queued, true, Next(limits, read))]),
            Put(w.errands, pid, Some(Recording(id, read, run))), w.sent[run := id])
  }

  // The new count is reckoned from the record as read; the run joins the record as it is.
  function Recorded(limits: Limits, s: Store, e: Errand): Store
    requires e.Recording? && e.id < |s.records|
  {
    var b := s.records[e.id];
    s.(records := s.records[e.id := b.(launched := e.read.launched + |Next(limits, e.read)|,
                                       runIds := b.runIds + [e.run])])
  }

  function EndedRun(runs: map<RunId, Run>, run: RunId, status: RunStatus): map<RunId, Run> {
    if run in runs && !runs[run].status.Over() then runs[run := runs[run].(status := status)] else runs
  }

  function DroppedRun(runs: map<RunId, Run>, run: RunId): map<RunId, Run> {
    if run in runs && runs[run].status.Over() then runs[run := runs[run].(kept := false)] else runs
  }

  function Step(limits: Limits, w: World, e: Event): World
    requires Enabled(w, e)
  {
    match e
    case Create(asset, keys) => w.(store := Created(w.store, asset, keys))
    case Read(pid, id) => w.(errands := Put(w.errands, pid, Some(Looking(id, w.store.records[id]))))
    case First(pid, id) => w.(errands := Put(w.errands, pid, Some(Sending(id, w.store.records[id]))))
    case Look(pid) => w.(errands := Put(w.errands, pid, AfterLook(w.store, w.errands[pid].id, w.errands[pid].read)))
    case Launch(pid, answer, run) => Launched(limits, w, pid, answer, run)
    case Record(pid) => w.(store := Recorded(limits, w.store, w.errands[pid]), errands := Put(w.errands, pid, None))
    case Finish(pid) =>
      w.(store := Close(w.store, w.errands[pid].id, w.errands[pid].status), errands := Put(w.errands, pid, None))
    case Lose(pid) => w.(errands := Put(w.errands, pid, None))
    case Cancel(id) => if id < |w.store.records| then w.(store := Close(w.store, id, Stopped)) else w
    case Ends(run, status) => w.(store := w.store.(runs := EndedRun(w.store.runs, run, status)))
    case Drops(run) => w.(store := w.store.(runs := DroppedRun(w.store.runs, run)))
  }

  /** What a look at a record decides, by the last run put on it. */
  lemma LookSays(s: Store, id: nat, read: Backfill)
    ensures AfterLook(s, id, read).None? <==> LastIs(s, read, Queued) || LastIs(s, read, Running)
    ensures AfterLook(s, id, read) == Some(Sending(id, read)) <==>
            read.runIds == [] || (LastIs(s, read, Success) && read.launched < |read.keys|)
    ensures AfterLook(s, id, read) == Some(Closing(id, Complete)) <==>
            LastIs(s, read, Success) && read.launched >= |read.keys|
    ensures AfterLook(s, id, read) == Some(Closing(id, Stopped)) <==> LastIs(s, read, Cancelled)
    ensures AfterLook(s, id, read) == Some(Closing(id, Failed)) <==>
            read.runIds != [] && !LastIs(s, read, Queued) && !LastIs(s, read, Running)
            && !LastIs(s, read, Success) && !LastIs(s, read, Cancelled)
  {
  }

  // Nothing else of the runs table.
  ghost predicate OnlyRun(runs: map<RunId, Run>, runs': map<RunId, Run>, run: RunId) {
    && (forall r :: r in runs' <==> r in runs)
    && (forall r :: r in runs && r != run ==> runs'[r] == runs[r])
    && (run in runs ==> runs'[run].chunk == runs[run].chunk)
  }

  /** A run ends once, as it ended first; its row may be dropped once it has. */
  lemma RunsSay(runs: map<RunId, Run>, run: RunId, status: RunStatus)
    ensures OnlyRun(runs, EndedRun(runs, run, status), run) && OnlyRun(runs, DroppedRun(runs, run), run)
    ensures run in runs ==>
              && EndedRun(runs, run, status)[run].kept == runs[run].kept
              && EndedRun(runs, run, status)[run].status ==
                 (if runs[run].status.Queued? || runs[run].status.Running? then status else runs[run].status)
              && DroppedRun(runs, run)[run].status == runs[run].status
              && (DroppedRun(runs, run)[run].kept <==>
                    runs[run].kept && (runs[run].status.Queued? || runs[run].status.Running?))
  {
  }

  ghost predicate Behaves(limits: Limits, states: seq<World>, events: seq<Event>) {
    && |states| == |events| + 1 && states[0] == World(Store([], map[]), map[], map[])
    && (forall a :: Floored(limits, a))
    && forall k :: 0 <= k < |events| ==>
         Enabled(states[k], events[k]) && states[k + 1] == Step(limits, states[k], events[k])
  }

  // ----------------------------------------------------------- what one step does to a record

  ghost predicate SameButStatus(a: Backfill, b: Backfill) {
    b == a.(status := b.status) && (!a.status.Going? ==> b == a)
  }

  lemma StepRecords(limits: Limits, w: World, e: Event, id: nat)
    requires Enabled(w, e) && id < |w.store.records|
    ensures id < |Step(limits, w, e).store.records|
    ensures !(e.Record? && w.errands[e.pid].id == id) ==>
              SameButStatus(w.store.records[id], Step(limits, w, e).store.records[id])
  {
  }

  lemma StepRuns(limits: Limits, w: World, e: Event)
    requires Enabled(w, e)
    ensures RunsKept(w.store.runs, Step(limits, w, e).store.runs)
  {
  }

  lemma StepGrows(limits: Limits, w: World, e: Event)
    requires Enabled(w, e)
    ensures |Step(limits, w, e).store.records| == |w.store.records| + if e.Create? then 1 else 0
  {
  }

  // ----------------------------------------------------------- the chunks sent are the prefix

  /** The chunks of the runs on record are, in order, exactly the first `launched` keys. */
  ghost predicate Prefixed(runs: map<RunId, Run>, b: Backfill) {
    && b.launched <= |b.keys| && Sent(runs, b.runIds) == b.keys[..b.launched]
    && forall i :: 0 <= i < |b.runIds| ==> b.runIds[i] in runs
  }

  ghost predicate AllPrefixed(s: Store) {
    forall id :: 0 <= id < |s.records| ==> Prefixed(s.runs, s.records[id])
  }

  /** No other chunk has gone on the record since it was read. */
  predicate AsRead(b: Backfill, read: Backfill) {
    b.launched == read.launched && b.runIds == read.runIds
  }

  // Read from the record some time ago: it has moved only by sending more.
  ghost predicate Earlier(read: Backfill, b: Backfill) {
    && read.keys == b.keys && read.asset == b.asset && read.launched <= b.launched
    && (read.launched == b.launched ==> AsRead(b, read))
  }

  ghost predicate ErrandOk(limits: Limits, s: Store, e: Errand) {
    && e.id < |s.records| && (!e.Closing? ==> Earlier(e.read, s.records[e.id]))
    && (e.Recording? ==> e.run in s.runs && s.runs[e.run].chunk == Next(limits, e.read) != [])
  }

  ghost predicate Inv(limits: Limits, w: World) {
    AllPrefixed(w.store) && forall pid :: pid in w.errands ==> ErrandOk(limits, w.store, w.errands[pid])
  }

  /** The record a chunk is put on is as it was when the chunk was worked out. */
  predicate FindsAsRead(w: World, e: Event)
    requires Enabled(w, e)
  {
    e.Record? ==> AsRead(w.store.records[w.errands[e.pid].id], w.errands[e.pid].read)
  }

  lemma PrefixedStays(runs: map<RunId, Run>, runs': map<RunId, Run>, a: Backfill, b: Backfill)
    requires Prefixed(runs, a) && RunsKept(runs, runs') && SameButStatus(a, b)
    ensures Prefixed(runs', b)
  {
    SentKept(runs, runs', a.runIds);
  }

  lemma CreatedPrefixed(runs: map<RunId, Run>, asset: Name, keys: seq<Key>, status: BackfillStatus)
    ensures Prefixed(runs, Backfill(asset, keys, 0, [], status))
  {
    assert keys[..0] == [];
  }

  lemma QuietKeepsPrefixes(limits: Limits, w: World, e: Event)
    requires Enabled(w, e) && AllPrefixed(w.store) && !e.Record?
    ensures AllPrefixed(Step(limits, w, e).store)
  {
    var w' := Step(limits, w, e);
    StepRuns(limits, w, e);
    StepGrows(limits, w, e);
    forall id | 0 <= id < |w'.store.records| ensures Prefixed(w'.store.runs, w'.store.records[id]) {
      if id < |w.store.records| {
        StepRecords(limits, w, e, id);
        PrefixedStays(w.store.runs, w'.store.runs, w.store.records[id], w'.store.records[id]);
      } else {
        CreatedPrefixed(w'.store.runs, e.asset, e.keys, w'.store.records[id].status);
      }
    }
  }

  lemma ErrandStays(limits: Limits, s: Store, s': Store, e: Errand)
    requires ErrandOk(limits, s, e) && e.id < |s'.records| && RunsKept(s.runs, s'.runs)
    requires SameButStatus(s.records[e.id], s'.records[e.id])
    ensures ErrandOk(limits, s', e)
  {
  }

  // The event is about this errand.
  predicate Moves(e: Event, pid: nat) {
    match e
    case Read(p, _) => p == pid
    case First(p, _) => p == pid
    case Look(p) => p == pid
    case Launch(p, _, _) => p == pid
    case Record(p) => p == pid
    case Finish(p) => p == pid
    case Lose(p) => p == pid
    case _ => false
  }

  lemma OtherErrandsStay(limits: Limits, w: World, e: Event, pid: nat)
    requires Enabled(w, e) && !Moves(e, pid)
    ensures pid in Step(limits, w, e).errands <==> pid in w.errands
    ensures pid in w.errands ==> Step(limits, w, e).errands[pid] == w.errands[pid]
  {
  }

  lemma ReadIsOk(limits: Limits, w: World, e: Event, pid: nat)
    requires Enabled(w, e) && Inv(limits, w) && (e.Read? || e.First? || e.Look?) && e.pid == pid
    ensures pid in Step(limits, w, e).errands ==>
              ErrandOk(limits, Step(limits, w, e).store, Step(limits, w, e).errands[pid])
  {
    if e.Look? {
      assert ErrandOk(limits, w.store, w.errands[pid]);
    }
  }

  lemma LaunchedIsOk(limits: Limits, w: World, e: Event)
    requires Enabled(w, e) && Inv(limits, w) && e.Launch?
    ensures e.pid in Step(limits, w, e).errands ==>
              ErrandOk(limits, Step(limits, w, e).store, Step(limits, w, e).errands[e.pid])
  {
    assert ErrandOk(limits, w.store, w.errands[e.pid]);
    StepRecords(limits, w, e, w.errands[e.pid].id);
  }

  lemma QuietKeepsErrands(limits: Limits, w: World, e: Event, pid: nat)
    requires Enabled(w, e) && Inv(limits, w) && !e.Record? && pid in Step(limits, w, e).errands
    ensures ErrandOk(limits, Step(limits, w, e).store, Step(limits, w, e).errands[pid])
  {
    if !Moves(e, pid) {
      OtherErrandsStay(limits, w, e, pid);
      StepRuns(limits, w, e);
      StepRecords(limits, w, e, w.errands[pid].id);
      ErrandStays(limits, w.store, Step(limits, w, e).store, w.errands[pid]);
    } else if e.Launch? {
      LaunchedIsOk(limits, w, e);
    } else {
      ReadIsOk(limits, w, e, pid);
    }
  }

  lemma QuietKeepsInv(limits: Limits, w: World, e: Event)
    requires Enabled(w, e) && Inv(limits, w) && !e.Record?
    ensures Inv(limits, Step(limits, w, e))
  {
    QuietKeepsPrefixes(limits, w, e);
    forall pid | pid in Step(limits, w, e).errands
      ensures ErrandOk(limits, Step(limits, w, e).store, Step(limits, w, e).errands[pid])
    {
      QuietKeepsErrands(limits, w, e, pid);
    }
  }

  // One more chunk, reckoned from `read`, on the record `b` has become.
  function OneMore(limits: Limits, b: Backfill, read: Backfill, run: RunId): Backfill {
    b.(launched := read.launched + |Next(limits, read)|, runIds := b.runIds + [run])
  }

  lemma OneMorePrefixedIff(limits: Limits, runs: map<RunId, Run>, b: Backfill, read: Backfill, run: RunId)
    requires Prefixed(runs, b) && Earlier(read, b) && run in runs && runs[run].chunk == Next(limits, read) != []
    ensures Prefixed(runs, OneMore(limits, b, read, run)) <==> AsRead(b, read)
  {
    var after := OneMore(limits, b, read, run);
    ChunkIsNext(read, limits(read.asset));
    assert after.runIds[..|after.runIds| - 1] == b.runIds;
    assert Sent(runs, after.runIds) == Sent(runs, b.runIds) + Next(limits, read);
    assert |Sent(runs, after.runIds)| == b.launched + |Next(limits, read)|;
  }

  lemma RecordKeepsInv(limits: Limits, w: World, e: Event)
    requires Enabled(w, e) && Inv(limits, w) && e.Record? && FindsAsRead(w, e)
    ensures Inv(limits, Step(limits, w, e))
  {
    var w', errand := Step(limits, w, e), w.errands[e.pid];
    OneMorePrefixedIff(limits, w.store.runs, w.store.records[errand.id], errand.read, errand.run);
    assert w'.store.records[errand.id] == OneMore(limits, w.store.records[errand.id], errand.read, errand.run);
    forall pid | pid in w'.errands ensures ErrandOk(limits, w'.store, w'.errands[pid]) {
      assert ErrandOk(limits, w.store, w.errands[pid]);
    }
  }

  /**
   * One step keeps every record's prefix exactly when it does not put a chunk on a
   * record that has moved since it was read.
   */
  lemma PrefixStepIff(limits: Limits, w: World, e: Event)
    requires Enabled(w, e) && Inv(limits, w)
    ensures AllPrefixed(Step(limits, w, e).store) <==> FindsAsRead(w, e)
    ensures FindsAsRead(w, e) ==> Inv(limits, Step(limits, w, e))
  {
    if !e.Record? {
      QuietKeepsInv(limits, w, e);
    } else {
      var errand := w.errands[e.pid];
      OneMorePrefixedIff(limits, w.store.runs, w.store.records[errand.id], errand.read, errand.run);
      assert Step(limits, w, e).store.records[errand.id]
          == OneMore(limits, w.store.records[errand.id], errand.read, errand.run);
      if FindsAsRead(w, e) {
        RecordKeepsInv(limits, w, e);
      }
    }
  }

  lemma {:induction false} InvUpTo(limits: Limits, states: seq<World>, events: seq<Event>, k: nat)
    requires Behaves(limits, states, events) && k < |states|
    requires forall i :: 0 <= i < k ==> FindsAsRead(states[i], events[i]) || AllPrefixed(states[i + 1].store)
    ensures Inv(limits, states[k])
  {
    if k > 0 {
      InvUpTo(limits, states, events, k - 1);
      assert FindsAsRead(states[k - 1], events[k - 1]) || AllPrefixed(states[k - 1 + 1].store);
      PrefixStepIff(limits, states[k - 1], events[k - 1]);
    }
  }

  /**
   * At every moment of a run the chunks on every record are, in order, exactly
   * its first `launched` keys, if and only if no chunk is put on a record that
   * another has been put on since it was read.
   */
  lemma ChunksAreThePrefixIff(limits: Limits, states: seq<World>, events: seq<Event>)
    requires Behaves(limits, states, events)
    ensures (forall k :: 0 <= k < |states| ==> AllPrefixed(states[k].store)) <==>
            (forall k :: 0 <= k < |events| ==> FindsAsRead(states[k], events[k]))
  {
    if forall k :: 0 <= k < |states| ==> AllPrefixed(states[k].store) {
      forall k | 0 <= k < |events| ensures FindsAsRead(states[k], events[k]) {
        InvUpTo(limits, states, events, k);
        PrefixStepIff(limits, states[k], events[k]);
        assert AllPrefixed(states[k + 1].store);
      }
    }
    if forall k :: 0 <= k < |events| ==> FindsAsRead(states[k], events[k]) {
      forall k | 0 <= k < |states| ensures AllPrefixed(states[k].store) {
        InvUpTo(limits, states, events, k);
      }
    }
  }

  // ----------------------------------------------------------- closed for good

  /** The record a chunk is put on is still going. */
  predicate FindsGoing(w: World, e: Event)
    requires Enabled(w, e)
  {
    e.Record? ==> w.store.records[w.errands[e.pid].id].status.Going?
  }

  predicate ClosedAt(w: World, id: nat) {
    id < |w.store.records| && !w.store.records[id].status.Going?
  }

  ghost predicate Final(states: seq<World>) {
    forall i, j, id :: 0 <= i <= j < |states| && ClosedAt(states[i], id) ==>
      StillThere(states[i], states[j], id)
  }

  ghost predicate StillThere(w: World, w': World, id: nat)
    requires id < |w.store.records|
  {
    id < |w'.store.records| && w'.store.records[id] == w.store.records[id]
  }

  lemma {:induction false} ClosedStays(limits: Limits, states: seq<World>, events: seq<Event>, i: nat, j: nat, id: nat)
    requires Behaves(limits, states, events) && i <= j < |states| && id < |states[i].store.records|
    requires !states[i].store.records[id].status.Going?
    requires forall k :: i <= k < j ==> FindsGoing(states[k], events[k])
    ensures StillThere(states[i], states[j], id)
  {
    if i < j {
      ClosedStays(limits, states, events, i, j - 1, id);
      StepRecords(limits, states[j - 1], events[j - 1], id);
    }
  }

  lemma RecordMoves(limits: Limits, w: World, e: Event)
    requires Enabled(w, e) && e.Record?
    ensures !StillThere(w, Step(limits, w, e), w.errands[e.pid].id)
  {
    var id := w.errands[e.pid].id;
    assert |Step(limits, w, e).store.records[id].runIds| == |w.store.records[id].runIds| + 1;
  }

  /**
   * Once closed a backfill never changes again, in the whole of a run, if and only
   * if no chunk is put on a closed record.
   */
  lemma ClosedForGoodIff(limits: Limits, states: seq<World>, events: seq<Event>)
    requires Behaves(limits, states, events)
    ensures Final(states) <==> forall k :: 0 <= k < |events| ==> FindsGoing(states[k], events[k])
  {
    if Final(states) {
      forall k | 0 <= k < |events| ensures FindsGoing(states[k], events[k]) {
        if events[k].Record? {
          RecordMoves(limits, states[k], events[k]);
          var id := states[k].errands[events[k].pid].id;
          assert !StillThere(states[k], states[k + 1], id);
          assert !ClosedAt(states[k], id);
        }
      }
    }
    if forall k :: 0 <= k < |events| ==> FindsGoing(states[k], events[k]) {
      forall i, j, id | 0 <= i <= j < |states| && ClosedAt(states[i], id)
        ensures StillThere(states[i], states[j], id)
      {
        ClosedStays(limits, states, events, i, j, id);
      }
    }
  }

  // ----------------------------------------------------------- what a close leaves outstanding

  /** The errands that have read a record and not launched for it yet. */
  function Outstanding(w: World, id: nat): set<nat> {
    set pid | pid in w.errands && w.errands[pid].id == id && (w.errands[pid].Looking? || w.errands[pid].Sending?)
  }

  function SentFor(w: World, id: nat): set<RunId> {
    set r | r in w.sent && w.sent[r] == id
  }

  // One more launch for `id`, by an errand that had read it.
  predicate LaunchesFor(limits: Limits, w: World, e: Event, id: nat)
    requires Enabled(w, e)
  {
    e.Launch? && w.errands[e.pid].id == id && e.answer.Took? && Next(limits, w.errands[e.pid].read) != []
  }

  lemma SentStep(limits: Limits, w: World, e: Event, id: nat)
    requires Enabled(w, e) && w.sent.Keys == w.store.runs.Keys
    ensures Step(limits, w, e).sent.Keys == Step(limits, w, e).store.runs.Keys
    ensures SentFor(Step(limits, w, e), id) == SentFor(w, id) + if LaunchesFor(limits, w, e, id) then {e.run} else {}
  {
  }

  lemma OutstandingAt(limits: Limits, w: World, e: Event, id: nat, pid: nat)
    requires Enabled(w, e) && id < |w.store.records| && !w.store.records[id].status.Going?
    requires pid in Outstanding(Step(limits, w, e), id)
    ensures pid in Outstanding(w, id) && !(LaunchesFor(limits, w, e, id) && pid == e.pid)
  {
    if !Moves(e, pid) {
      OtherErrandsStay(limits, w, e, pid);
    }
  }

  // Nothing reads a closed record, so a launch for it uses up an errand that had.
  lemma ClosedStep(limits: Limits, w: World, e: Event, id: nat)
    requires Enabled(w, e) && id < |w.store.records| && !w.store.records[id].status.Going?
    requires w.sent.Keys == w.store.runs.Keys
    ensures var w' := Step(limits, w, e);
            && w'.sent.Keys == w'.store.runs.Keys && SentFor(w, id) <= SentFor(w', id)
            && |SentFor(w', id)| + |Outstanding(w', id)| <= |SentFor(w, id)| + |Outstanding(w, id)|
  {
    var w' := Step(limits, w, e);
    SentStep(limits, w, e, id);
    forall pid | pid in Outstanding(w', id)
      ensures pid in Outstanding(w, id) && !(LaunchesFor(limits, w, e, id) && pid == e.pid)
    {
      OutstandingAt(limits, w, e, id, pid);
    }
    if LaunchesFor(limits, w, e, id) {
      assert e.pid in Outstanding(w, id);
      SubsetSize(Outstanding(w', id), Outstanding(w, id) - {e.pid});
    } else {
      SubsetSize(Outstanding(w', id), Outstanding(w, id));
    }
  }

  lemma {:induction false} SentAreRuns(limits: Limits, states: seq<World>, events: seq<Event>, k: nat)
    requires Behaves(limits, states, events) && k < |states|
    ensures states[k].sent.Keys == states[k].store.runs.Keys
  {
    if k > 0 {
      SentAreRuns(limits, states, events, k - 1);
      assert states[k] == Step(limits, states[k - 1], events[k - 1]);
    }
  }

  lemma {:induction false} StaysClosed(limits: Limits, states: seq<World>, events: seq<Event>, i: nat, j: nat, id: nat)
    requires Behaves(limits, states, events) && i <= j < |states| && id < |states[i].store.records|
    requires !states[i].store.records[id].status.Going?
    ensures id < |states[j].store.records| && states[j].store.records[id].status == states[i].store.records[id].status
  {
    if i < j {
      StaysClosed(limits, states, events, i, j - 1, id);
      StepRecords(limits, states[j - 1], events[j - 1], id);
    }
  }

  /**
   * However a run goes on after a backfill is closed, it is sent at most one
   * more chunk for each errand that had read it and not yet launched, and its
   * status stands.
   */
  lemma {:induction false} LateChunksBounded(limits: Limits, states: seq<World>, events: seq<Event>, i: nat, j: nat,
                                             id: nat)
    requires Behaves(limits, states, events) && i <= j < |states| && id < |states[i].store.records|
    requires !states[i].store.records[id].status.Going?
    ensures SentFor(states[i], id) <= SentFor(states[j], id)
    ensures |SentFor(states[j], id)| + |Outstanding(states[j], id)| <= |SentFor(states[i],
                                                                                id)| + |Outstanding(states[i], id)|
    ensures id < |states[j].store.records| && states[j].store.records[id].status == states[i].store.records[id].status
  {
    StaysClosed(limits, states, events, i, j, id);
    if i < j {
      LateChunksBounded(limits, states, events, i, j - 1, id);
      StaysClosed(limits, states, events, i, j - 1, id);
      SentAreRuns(limits, states, events, j - 1);
      ClosedStep(limits, states[j - 1], events[j - 1], id);
    }
  }

  // ----------------------------------------------------------- every launch is accounted for

  ghost predicate AwaitsRecord(w: World, r: RunId, id: nat) {
    exists pid :: pid in w.errands && w.errands[pid].Recording? && w.errands[pid].run == r && w.errands[pid].id == id
  }

  ghost predicate OnRecord(w: World, r: RunId, id: nat) {
    id < |w.store.records| && r in w.store.records[id].runIds
  }

  /** Every run launched for a backfill is on its record, or about to be. */
  ghost predicate Accounted(w: World) {
    forall r :: r in w.sent ==> OnRecord(w, r, w.sent[r]) || AwaitsRecord(w, r, w.sent[r])
  }

  predicate SameRun(a: Errand, b: Errand) {
    a.Recording? && b.Recording? && a.run == b.run
  }

  // What is on record was sent, and what awaits recording is on no record and in one hand.
  ghost predicate Tracked(w: World) {
    && w.sent.Keys == w.store.runs.Keys
    && (forall id, r :: OnRecord(w, r, id) ==> r in w.sent && w.sent[r] == id)
    && (forall pid :: pid in w.errands ==> w.errands[pid].id < |w.store.records|)
    && (forall pid :: pid in w.errands && w.errands[pid].Recording? ==>
          w.errands[pid].run in w.sent && w.sent[w.errands[pid].run] == w.errands[pid].id
          && !OnRecord(w, w.errands[pid].run, w.errands[pid].id))
    && forall p, q :: p in w.errands && q in w.errands && SameRun(w.errands[p], w.errands[q]) ==> p == q
  }

  /** The errand is dropped with its chunk launched and not recorded. */
  predicate LosesLaunch(w: World, e: Event)
    requires Enabled(w, e)
  {
    e.Lose? && w.errands[e.pid].Recording?
  }

  // On the record an errand writes, its run is new; every other record keeps its runs.
  lemma OnRecordStep(limits: Limits, w: World, e: Event, r: RunId, id: nat)
    requires Enabled(w, e) && forall pid :: pid in w.errands ==> w.errands[pid].id < |w.store.records|
    ensures OnRecord(Step(limits, w, e), r, id) <==>
            OnRecord(w, r, id) || (e.Record? && w.errands[e.pid].id == id && w.errands[e.pid].run == r)
  {
    StepGrows(limits, w, e);
    if id < |w.store.records| {
      StepRecords(limits, w, e, id);
    }
  }

  lemma TrackedRecords(limits: Limits, w: World, e: Event)
    requires Enabled(w, e) && Tracked(w)
    ensures Step(limits, w, e).sent.Keys == Step(limits, w, e).store.runs.Keys
    ensures forall r :: r in w.sent ==> r in Step(limits, w, e).sent && Step(limits, w, e).sent[r] == w.sent[r]
    ensures forall id, r :: OnRecord(Step(limits, w, e), r, id) ==> r in w.sent && w.sent[r] == id
  {
    forall id, r | OnRecord(Step(limits, w, e), r, id) ensures r in w.sent && w.sent[r] == id {
      OnRecordStep(limits, w, e, r, id);
    }
  }

  lemma ErrandTracked(limits: Limits, w: World, e: Event, pid: nat)
    requires Enabled(w, e) && Tracked(w) && pid in Step(limits, w, e).errands
    ensures var w', errand := Step(limits, w, e), Step(limits, w, e).errands[pid];
            && errand.id < |w.store.records|
            && (errand.Recording? ==>
                  || (pid in w.errands && w.errands[pid] == errand && !(e.Record? && e.pid == pid))
                  || (e.Launch? && e.pid == pid && errand.run == e.run && e.run !in w.sent && e.run in w'.sent
                      && w'.sent[e.run] == errand.id))
  {
    if !Moves(e, pid) {
      OtherErrandsStay(limits, w, e, pid);
    } else if e.Look? || e.Launch? {
      assert w.errands[pid].id < |w.store.records|;
    }
  }

  lemma TrackedErrands(limits: Limits, w: World, e: Event)
    requires Enabled(w, e) && Tracked(w)
    ensures Tracked(Step(limits, w, e))
  {
    var w' := Step(limits, w, e);
    TrackedRecords(limits, w, e);
    StepGrows(limits, w, e);
    forall pid | pid in w'.errands ensures w'.errands[pid].id < |w'.store.records| {
      ErrandTracked(limits, w, e, pid);
    }
    forall pid | pid in w'.errands && w'.errands[pid].Recording?
      ensures w'.errands[pid].run in w'.sent && w'.sent[w'.errands[pid].run] == w'.errands[pid].id
              && !OnRecord(w', w'.errands[pid].run, w'.errands[pid].id)
    {
      ErrandTracked(limits, w, e, pid);
      OnRecordStep(limits, w, e, w'.errands[pid].run, w'.errands[pid].id);
    }
    forall p, q | p in w'.errands && q in w'.errands && SameRun(w'.errands[p], w'.errands[q]) ensures p == q {
      ErrandTracked(limits, w, e, p);
      ErrandTracked(limits, w, e, q);
    }
  }

  /**
   * One step leaves every launch accounted for exactly when it does not drop an
   * errand between launching and recording.
   */
  lemma AccountedStepIff(limits: Limits, w: World, e: Event)
    requires Enabled(w, e) && Tracked(w) && Accounted(w)
    ensures Accounted(Step(limits, w, e)) <==> !LosesLaunch(w, e)
  {
    var w' := Step(limits, w, e);
    if LosesLaunch(w, e) {
      LostIsUnaccounted(limits, w, e);
    } else {
      forall r | r in w'.sent ensures OnRecord(w', r, w'.sent[r]) || AwaitsRecord(w', r, w'.sent[r]) {
        StillAccounted(limits, w, e, r);
      }
    }
  }

  lemma LostIsUnaccounted(limits: Limits, w: World, e: Event)
    requires Enabled(w, e) && Tracked(w) && LosesLaunch(w, e)
    ensures !Accounted(Step(limits, w, e))
  {
    var w', lost := Step(limits, w, e), w.errands[e.pid];
    OnRecordStep(limits, w, e, lost.run, lost.id);
    if AwaitsRecord(w', lost.run, lost.id) {
      var pid :| pid in w'.errands && w'.errands[pid].Recording?
              && w'.errands[pid].run == lost.run && w'.errands[pid].id == lost.id;
      assert pid in w.errands && SameRun(w.errands[pid], w.errands[e.pid]);
    }
    assert lost.run in w'.sent && w'.sent[lost.run] == lost.id;
  }

  lemma StillAccounted(limits: Limits, w: World, e: Event, r: RunId)
    requires Enabled(w, e) && Tracked(w) && Accounted(w) && !LosesLaunch(w, e) && r in Step(limits, w, e).sent
    ensures var w' := Step(limits, w, e);
            OnRecord(w', r, w'.sent[r]) || AwaitsRecord(w', r, w'.sent[r])
  {
    var w' := Step(limits, w, e);
    TrackedRecords(limits, w, e);
    if r in w.sent {
      OnRecordStep(limits, w, e, r, w.sent[r]);
      if !OnRecord(w, r, w.sent[r]) {
        var pid :| pid in w.errands && w.errands[pid].Recording?
                && w.errands[pid].run == r && w.errands[pid].id == w.sent[r];
        StillAwaits(limits, w, e, pid);
      }
    } else {
      assert e.Launch? && r == e.run && e.pid in w'.errands && w'.errands[e.pid].Recording?;
      assert w'.errands[e.pid].run == r;
    }
  }

  lemma StillAwaits(limits: Limits, w: World, e: Event, pid: nat)
    requires Enabled(w, e) && Tracked(w) && !LosesLaunch(w, e) && pid in w.errands && w.errands[pid].Recording?
    ensures var w', errand := Step(limits, w, e), w.errands[pid];
            (pid in w'.errands && w'.errands[pid] == errand) || OnRecord(w', errand.run, errand.id)
  {
    if !Moves(e, pid) {
      OtherErrandsStay(limits, w, e, pid);
    } else {
      OnRecordStep(limits, w, e, w.errands[pid].run, w.errands[pid].id);
    }
  }

  lemma {:induction false} TrackedThroughout(limits: Limits, states: seq<World>, events: seq<Event>, k: nat)
    requires Behaves(limits, states, events) && k < |states|
    ensures Tracked(states[k])
  {
    if k > 0 {
      TrackedThroughout(limits, states, events, k - 1);
      TrackedErrands(limits, states[k - 1], events[k - 1]);
    }
  }

  lemma {:induction false} AccountedUpTo(limits: Limits, states: seq<World>, events: seq<Event>, k: nat)
    requires Behaves(limits, states, events) && k < |states|
    requires forall i :: 0 <= i < k ==> !LosesLaunch(states[i], events[i])
    ensures Accounted(states[k])
  {
    if k > 0 {
      AccountedUpTo(limits, states, events, k - 1);
      TrackedThroughout(limits, states, events, k - 1);
      AccountedStepIff(limits, states[k - 1], events[k - 1]);
    }
  }

  /**
   * Every run launched for a backfill is on its record or about to be, at every
   * moment of a run, if and only if no errand is dropped between launching a
   * chunk and recording it.
   */
  lemma LaunchesAccountedIff(limits: Limits, states: seq<World>, events: seq<Event>)
    requires Behaves(limits, states, events)
    ensures (forall k :: 0 <= k < |states| ==> Accounted(states[k])) <==>
            (forall k :: 0 <= k < |events| ==> !LosesLaunch(states[k], events[k]))
  {
    if forall k :: 0 <= k < |states| ==> Accounted(states[k]) {
      forall k | 0 <= k < |events| ensures !LosesLaunch(states[k], events[k]) {
        assert Accounted(states[k]) && Accounted(states[k + 1]);
        TrackedThroughout(limits, states, events, k);
        AccountedStepIff(limits, states[k], events[k]);
      }
    }
    if forall k :: 0 <= k < |events| ==> !LosesLaunch(states[k], events[k]) {
      forall k | 0 <= k < |states| ensures Accounted(states[k]) {
        AccountedUpTo(limits, states, events, k);
      }
    }
  }

  // ----------------------------------------------------------- undisturbed runs

  ghost predicate Ready(runs: map<RunId, Run>, b: Backfill) {
    forall i :: 0 <= i < |b.runIds| ==> b.runIds[i] in runs && runs[b.runIds[i]].status.Success?
  }

  ghost predicate RecordInTurn(runs: map<RunId, Run>, b: Backfill) {
    InTurn(runs, b) && (b.status.Complete? ==> Done(runs, b))
  }

  ghost predicate ErrandInTurn(s: Store, e: Errand)
    requires e.id < |s.records|
  {
    match e
    case Looking(_, read) => InTurn(s.runs, read)
    case Sending(_, read) => Ready(s.runs, read)
    case Recording(_, read, _) => Ready(s.runs, read)
    case Closing(id, status) => status.Complete? ==> Done(s.runs, s.records[id])
  }

  ghost predicate InvInTurn(limits: Limits, w: World) {
    && Inv(limits, w)
    && (forall id :: 0 <= id < |w.store.records| ==> RecordInTurn(w.store.runs, w.store.records[id]))
    && forall pid :: pid in w.errands ==> ErrandInTurn(w.store, w.errands[pid])
  }

  /**
   * Nothing comes between a read and what it leads to: a chunk goes on a record
   * still going and as it was read, no launch is lost before it is recorded, and
   * a start finds its own record with nothing launched.
   */
  predicate Calm(w: World, e: Event)
    requires Enabled(w, e)
  {
    FindsAsRead(w, e) && FindsGoing(w, e) && !LosesLaunch(w, e) && (e.First? ==> w.store.records[e.id].runIds == [])
  }

  lemma InTurnStays(runs: map<RunId, Run>, runs': map<RunId, Run>, a: Backfill, b: Backfill)
    requires RunsKept(runs, runs') && SameButStatus(a, b)
    ensures InTurn(runs, a) ==> InTurn(runs', b)
    ensures Done(runs, a) ==> Done(runs', b)
    ensures Ready(runs, a) ==> Ready(runs', b)
  {
  }

  lemma ErrandInTurnStays(s: Store, s': Store, e: Errand)
    requires e.id < |s.records| && e.id < |s'.records| && RunsKept(s.runs, s'.runs) && ErrandInTurn(s, e)
    requires SameButStatus(s.records[e.id], s'.records[e.id])
    ensures ErrandInTurn(s', e)
  {
    InTurnStays(s.runs, s'.runs, s.records[e.id], s'.records[e.id]);
    if !e.Closing? {
      InTurnStays(s.runs, s'.runs, e.read, e.read);
    }
  }

  // A record all of whose runs have succeeded, read when everything had been sent, is done.
  lemma SentAndReady(runs: map<RunId, Run>, read: Backfill, b: Backfill)
    requires Prefixed(runs, b) && Earlier(read, b) && read.launched >= |read.keys| && Ready(runs, read)
    ensures Done(runs, b)
  {
  }

  lemma LookInTurn(s: Store, id: nat, read: Backfill)
    requires id < |s.records| && Prefixed(s.runs, s.records[id]) && Earlier(read, s.records[id])
    requires ErrandInTurn(s, Looking(id, read)) && AfterLook(s, id, read).Some?
    ensures AfterLook(s, id, read).value.id == id && ErrandInTurn(s, AfterLook(s, id, read).value)
  {
    if read.runIds != [] && LastStatus(s, read).Success? {
      assert Ready(s.runs, read);
      if read.launched >= |read.keys| {
        SentAndReady(s.runs, read, s.records[id]);
      }
    }
  }

  lemma LookedInTurn(limits: Limits, w: World, e: Event)
    requires Enabled(w, e) && InvInTurn(limits, w) && e.Look? && e.pid in Step(limits, w, e).errands
    ensures Step(limits, w, e).errands[e.pid].id < |w.store.records|
    ensures ErrandInTurn(w.store, Step(limits, w, e).errands[e.pid])
  {
    var id, read := w.errands[e.pid].id, w.errands[e.pid].read;
    assert ErrandOk(limits, w.store, w.errands[e.pid]) && ErrandInTurn(w.store, w.errands[e.pid]);
    LookInTurn(w.store, id, read);
  }

  lemma LaunchedInTurn(limits: Limits, w: World, e: Event)
    requires Enabled(w, e) && InvInTurn(limits, w) && e.Launch? && e.pid in Step(limits, w, e).errands
    requires forall a :: Floored(limits, a)
    ensures Step(limits, w, e).errands[e.pid].id < |Step(limits, w, e).store.records|
    ensures ErrandInTurn(Step(limits, w, e).store, Step(limits, w, e).errands[e.pid])
  {
    var id, read := w.errands[e.pid].id, w.errands[e.pid].read;
    assert ErrandOk(limits, w.store, w.errands[e.pid]) && ErrandInTurn(w.store, w.errands[e.pid]);
    assert Floored(limits, read.asset);
    ChunkIsNext(read, limits(read.asset));
    if Next(limits, read) == [] {
      SentAndReady(w.store.runs, read, w.store.records[id]);
    }
    StepRuns(limits, w, e);
    InTurnStays(w.store.runs, Step(limits, w, e).store.runs, read, read);
  }

  lemma QuietErrandInTurn(limits: Limits, w: World, e: Event, pid: nat)
    requires Enabled(w, e) && InvInTurn(limits, w) && Calm(w, e) && !e.Record? && (forall a :: Floored(limits, a))
    requires pid in Step(limits, w, e).errands
    ensures Step(limits, w, e).errands[pid].id < |Step(limits, w, e).store.records|
    ensures ErrandInTurn(Step(limits, w, e).store, Step(limits, w, e).errands[pid])
  {
    QuietKeepsErrands(limits, w, e, pid);
    if !Moves(e, pid) {
      OtherErrandsStay(limits, w, e, pid);
      assert ErrandOk(limits, w.store, w.errands[pid]);
      StepRuns(limits, w, e);
      StepRecords(limits, w, e, w.errands[pid].id);
      ErrandInTurnStays(w.store, Step(limits, w, e).store, w.errands[pid]);
    } else if e.Look? {
      LookedInTurn(limits, w, e);
    } else if e.Launch? {
      LaunchedInTurn(limits, w, e);
    }
  }

  lemma QuietRecordInTurn(limits: Limits, w: World, e: Event, id: nat)
    requires Enabled(w, e) && InvInTurn(limits, w) && !e.Record? && id < |Step(limits, w, e).store.records|
    ensures RecordInTurn(Step(limits, w, e).store.runs, Step(limits, w, e).store.records[id])
  {
    var w' := Step(limits, w, e);
    if id < |w.store.records| {
      StepRuns(limits, w, e);
      StepRecords(limits, w, e, id);
      InTurnStays(w.store.runs, w'.store.runs, w.store.records[id], w'.store.records[id]);
      if e.Finish? {
        assert ErrandInTurn(w.store, w.errands[e.pid]);
      }
    }
  }

  lemma QuietKeepsInTurn(limits: Limits, w: World, e: Event)
    requires Enabled(w, e) && InvInTurn(limits, w) && Calm(w, e) && !e.Record? && (forall a :: Floored(limits, a))
    ensures InvInTurn(limits, Step(limits, w, e))
  {
    var w' := Step(limits, w, e);
    QuietKeepsInv(limits, w, e);
    forall id | 0 <= id < |w'.store.records| ensures RecordInTurn(w'.store.runs, w'.store.records[id]) {
      QuietRecordInTurn(limits, w, e, id);
    }
    forall pid | pid in w'.errands ensures ErrandInTurn(w'.store, w'.errands[pid]) {
      QuietErrandInTurn(limits, w, e, pid);
    }
  }

  lemma RecordKeepsInTurn(limits: Limits, w: World, e: Event)
    requires Enabled(w, e) && InvInTurn(limits, w) && Calm(w, e) && e.Record?
    ensures InvInTurn(limits, Step(limits, w, e))
  {
    var w', errand := Step(limits, w, e), w.errands[e.pid];
    RecordKeepsInv(limits, w, e);
    assert ErrandOk(limits, w.store, errand) && ErrandInTurn(w.store, errand);
    ChunkIsNext(errand.read, limits(errand.read.asset));
    forall pid | pid in w'.errands ensures ErrandInTurn(w'.store, w'.errands[pid]) {
      assert w'.errands[pid] == w.errands[pid] && ErrandInTurn(w.store, w.errands[pid]);
    }
  }

  lemma {:induction false} InTurnThroughout(limits: Limits, states: seq<World>, events: seq<Event>, k: nat)
    requires Behaves(limits, states, events) && k < |states|
    requires forall i :: 0 <= i < |events| ==> Calm(states[i], events[i])
    ensures InvInTurn(limits, states[k])
  {
    if k > 0 {
      InTurnThroughout(limits, states, events, k - 1);
      if events[k - 1].Record? {
        RecordKeepsInTurn(limits, states[k - 1], events[k - 1]);
      } else {
        QuietKeepsInTurn(limits, states[k - 1], events[k - 1]);
      }
    }
  }

  lemma {:induction false} RunsOnceOnRecord(limits: Limits, states: seq<World>, events: seq<Event>, k: nat, id: nat)
    requires Behaves(limits, states, events) && k < |states| && id < |states[k].store.records|
    ensures NoRepeats(states[k].store.records[id].runIds)
  {
    if k > 0 {
      var w, e := states[k - 1], events[k - 1];
      TrackedThroughout(limits, states, events, k - 1);
      StepGrows(limits, w, e);
      if id < |w.store.records| {
        RunsOnceOnRecord(limits, states, events, k - 1, id);
        StepRecords(limits, w, e, id);
        if e.Record? && w.errands[e.pid].id == id {
          assert !OnRecord(w, w.errands[e.pid].run, id);
        }
      }
    }
  }

  /**
   * With nothing coming between a read and what it leads to, at every moment of
   * a run of any number of passes, starts and cancels: the chunks on a record are
   * its first `launched` keys in order, each run but the last has succeeded, a
   * complete backfill has sent every key to a run that succeeded, and when no
   * launch of it awaits recording the runs it was sent are exactly the ones on
   * record, each once.
   */
  lemma UndisturbedBackfills(limits: Limits, states: seq<World>, events: seq<Event>, k: nat, id: nat)
    requires Behaves(limits, states, events) && k < |states| && id < |states[k].store.records|
    requires forall i :: 0 <= i < |events| ==> Calm(states[i], events[i])
    ensures var runs, b := states[k].store.runs, states[k].store.records[id];
            && Prefixed(runs, b) && InTurn(runs, b) && (b.status.Complete? ==> Done(runs, b)) && NoRepeats(b.runIds)
            && ((forall r :: !AwaitsRecord(states[k], r, id)) ==> forall r :: r in SentFor(states[k], id) <==>
                 r in b.runIds)
  {
    InTurnThroughout(limits, states, events, k);
    AccountedUpTo(limits, states, events, k);
    TrackedThroughout(limits, states, events, k);
    RunsOnceOnRecord(limits, states, events, k, id);
    var w := states[k];
    assert RecordInTurn(w.store.runs, w.store.records[id]);
    if forall r :: !AwaitsRecord(w, r, id) {
      forall r ensures r in SentFor(w, id) <==> OnRecord(w, r, id) {
      }
    }
  }

  // ----------------------------------------------------------- an uninterrupted errand

  // From the decision to send to the chunk on record.
  function SentOut(limits: Limits, w: World, pid: nat, answer: Launch, run: RunId): World
    requires pid in w.errands && w.errands[pid].Sending? && w.errands[pid].id < |w.store.records|
    requires run !in w.store.runs
  {
    var launched := Step(limits, w, Event.Launch(pid, answer, run));
    if pid !in launched.errands then launched
    else if launched.errands[pid].Closing? then Step(limits, launched, Finish(pid))
    else Step(limits, launched, Record(pid))
  }

  lemma SentOutLaunches(limits: Limits, w: World, pid: nat, answer: Launch, run: RunId)
    requires pid in w.errands && w.errands[pid].Sending? && w.errands[pid].id < |w.store.records|
    requires run !in w.store.runs
    ensures var e := w.errands[pid];
            SentOut(limits, w, pid, answer, run).store
            == LaunchNext(w.store, e.id, e.read, limits(e.read.asset), answer, run)
    ensures SentOut(limits, w, pid, answer, run).errands == w.errands - {pid}
  {
  }

  /** One record handled from start to end with nothing in between. */
  function Handled(limits: Limits, w: World, pid: nat, id: nat, answer: Launch, run: RunId): World
    requires pid !in w.errands && GoingAt(w, id) && run !in w.store.runs
  {
    var looked := Step(limits, Step(limits, w, Read(pid, id)), Look(pid));
    if pid !in looked.errands then looked
    else if looked.errands[pid].Closing? then Step(limits, looked, Finish(pid))
    else SentOut(limits, looked, pid, answer, run)
  }

  lemma LookedAt(limits: Limits, w: World, pid: nat, id: nat)
    requires pid !in w.errands && GoingAt(w, id)
    ensures var looked := Step(limits, Step(limits, w, Read(pid, id)), Look(pid));
            && looked.store == w.store && looked.errands - {pid} == w.errands
            && looked.errands == Put(w.errands, pid, AfterLook(w.store, id, w.store.records[id]))
  {
    var read := Step(limits, w, Read(pid, id));
    assert read.errands - {pid} == w.errands;
  }

  /** What a pass does about one record is its errand uninterrupted. */
  lemma VisitIsHandled(limits: Limits, w: World, pid: nat, id: nat, answer: Launch, run: RunId)
    requires pid !in w.errands && GoingAt(w, id) && run !in w.store.runs
    ensures Handled(limits, w, pid, id, answer, run).store
         == Visit(w.store, id, limits(w.store.records[id].asset), answer, run)
    ensures Handled(limits, w, pid, id, answer, run).errands == w.errands
  {
    var looked := Step(limits, Step(limits, w, Read(pid, id)), Look(pid));
    LookedAt(limits, w, pid, id);
    if pid in looked.errands && looked.errands[pid].Sending? {
      SentOutLaunches(limits, looked, pid, answer, run);
    }
  }

  // ----------------------------------------------------------- one backfill of an asset at a time

  /** A start that found none of its asset going finds none still when it writes its record. */
  predicate FindsNoneGoing(w: World, e: Event) {
    e.Create? && e.keys != [] ==> !Busy(w.store, e.asset)
  }

  lemma OneAtATimeStep(limits: Limits, w: World, e: Event)
    requires Enabled(w, e) && OnePerAsset(w.store)
    ensures OnePerAsset(Step(limits, w, e).store) <==> FindsNoneGoing(w, e)
  {
    var s, s' := w.store, Step(limits, w, e).store;
    StepGrows(limits, w, e);
    if e.Create? {
      if !FindsNoneGoing(w, e) {
        var i :| 0 <= i < |s.records| && s.records[i].asset == e.asset && s.records[i].status.Going?;
        assert s'.records[i] == s.records[i] && s'.records[|s.records|].status.Going?;
      }
    } else {
      forall id | 0 <= id < |s.records|
        ensures s'.records[id].asset == s.records[id].asset
        ensures s'.records[id].status.Going? ==> s.records[id].status.Going?
      {
        StepRecords(limits, w, e, id);
      }
    }
  }

  lemma {:induction false} OneAtATimeUpTo(limits: Limits, states: seq<World>, events: seq<Event>, k: nat)
    requires Behaves(limits, states, events) && k < |states|
    requires forall i :: 0 <= i < k ==> FindsNoneGoing(states[i], events[i])
    ensures OnePerAsset(states[k].store)
  {
    if k > 0 {
      OneAtATimeUpTo(limits, states, events, k - 1);
      OneAtATimeStep(limits, states[k - 1], events[k - 1]);
    }
  }

  /**
   * Two backfills of one asset are never both going, if and only if no start
   * writes its record after another of the asset has begun.
   */
  lemma OneAtATimeIff(limits: Limits, states: seq<World>, events: seq<Event>)
    requires Behaves(limits, states, events)
    ensures (forall k :: 0 <= k < |states| ==> OnePerAsset(states[k].store)) <==>
            (forall k :: 0 <= k < |events| ==> FindsNoneGoing(states[k], events[k]))
  {
    if forall k :: 0 <= k < |states| ==> OnePerAsset(states[k].store) {
      forall k | 0 <= k < |events| ensures FindsNoneGoing(states[k], events[k]) {
        assert OnePerAsset(states[k].store) && OnePerAsset(states[k + 1].store);
        OneAtATimeStep(limits, states[k], events[k]);
      }
    }
    if forall k :: 0 <= k < |events| ==> FindsNoneGoing(states[k], events[k]) {
      forall k | 0 <= k < |states| ensures OnePerAsset(states[k].store) {
        OneAtATimeUpTo(limits, states, events, k);
      }
    }
  }

  // ----------------------------------------------------------- what comes between

  function Ones(): Limits {
    (a: Name) => 1
  }

  function Begun(a: Name, x: Key, y: Key): Backfill {
    Backfill(a, [x, y], 0, [], Going)
  }

  function Alone(b: Backfill, runs: map<RunId, Run>, errands: map<nat, Errand>, sent: map<RunId, nat>): World {
    World(Store([b], runs), errands, sent)
  }

  ghost predicate Follows(w: World, e: Event, w': World) {
    Enabled(w, e) && w' == Step(Ones(), w, e)
  }

  lemma Begins(a: Name, x: Key, y: Key)
    ensures Follows(World(Store([], map[]), map[], map[]), Create(a, [x, y]),
                    Alone(Begun(a, x, y), map[], map[], map[]))
  {
  }

  lemma Sends(a: Name, x: Key, y: Key, pid: nat, run: RunId, errands: map<nat, Errand>, runs: map<RunId, Run>,
              sent: map<RunId, nat>, now: Backfill)
    requires run !in runs && pid !in errands
    ensures var read := Begun(a, x, y);
            var sending := Alone(now, runs, errands[pid := Sending(0, read)], sent);
            && Follows(Alone(now, runs, errands[pid := Looking(0, read)], sent), Look(pid), sending)
            && Follows(sending, Event.Launch(pid, Took, run),
                       Alone(now, runs[run := Run(Queued, true, [x])], errands[pid := Recording(0, read, run)],
                             sent[run := 0]))
  {
    var read := Begun(a, x, y);
    assert Next(Ones(), read) == [x];
    var looking := errands[pid := Looking(0, read)];
    assert Put(looking, pid, Some(Sending(0, read))) == errands[pid := Sending(0, read)];
    var sending, recording := errands[pid := Sending(0, read)], errands[pid := Recording(0, read, run)];
    assert Put(sending, pid, Some(Recording(0, read, run))) == recording;
  }

  lemma Records(a: Name, x: Key, y: Key, pid: nat, run: RunId, errands: map<nat, Errand>, runs: map<RunId, Run>,
                sent: map<RunId, nat>, now: Backfill)
    requires pid !in errands
    ensures Follows(Alone(now, runs, errands[pid := Recording(0, Begun(a, x, y), run)], sent), Record(pid),
                    Alone(now.(launched := 1, runIds := now.runIds + [run]), runs, errands, sent))
  {
    assert Next(Ones(), Begun(a, x, y)) == [x];
    assert errands[pid := Recording(0, Begun(a, x, y), run)] - {pid} == errands;
  }

  lemma BehavesStep(states: seq<World>, events: seq<Event>, e: Event, w: World)
    requires Behaves(Ones(), states, events) && Follows(states[|events|], e, w)
    ensures Behaves(Ones(), states + [w], events + [e])
  {
    var longer, all := states + [w], events + [e];
    forall k | 0 <= k < |all| ensures Enabled(longer[k], all[k]) && longer[k + 1] == Step(Ones(), longer[k], all[k]) {
      if k < |events| {
        assert states[k + 1] == Step(Ones(), states[k], events[k]);
      }
    }
  }

  /** A run so far, one event at a time. */
  lemma Then(states: seq<World>, events: seq<Event>, e: Event,
             w: World) returns (states': seq<World>, events': seq<Event>)
    requires Behaves(Ones(), states, events) && Follows(states[|events|], e, w)
    ensures Behaves(Ones(), states', events') && states'[|events'|] == w
  {
    states', events' := states + [w], events + [e];
    BehavesStep(states, events, e, w);
  }

  lemma Opens(a: Name, x: Key, y: Key) returns (states: seq<World>, events: seq<Event>)
    ensures Behaves(Ones(), states, events)
    ensures states[|events|] == Alone(Begun(a, x, y), map[], map[0 := Looking(0, Begun(a, x, y))], map[])
  {
    Begins(a, x, y);
    states, events := [World(Store([], map[]), map[], map[])], [];
    states, events := Then(states, events, Create(a, [x, y]), Alone(Begun(a, x, y), map[], map[], map[]));
    states, events := Then(states, events, Read(0, 0),
                           Alone(Begun(a, x, y), map[], map[0 := Looking(0, Begun(a, x, y))], map[]));
  }

  /** Two passes that read one record in the same state send its first chunk twice. */
  lemma TwoReadersRepeatAChunk(a: Name, x: Key, y: Key) returns (states: seq<World>, events: seq<Event>)
    ensures Behaves(Ones(), states, events)
    ensures var s := states[|events|].store;
            && s.records == [Backfill(a, [x, y], 1, [0, 1], Going)]
            && s.runs == map[0 := Run(Success, true, [x]), 1 := Run(Queued, true, [x])]
  {
    states, events := Opens(a, x, y);
    var b := Begun(a, x, y);
    var one := map[1 := Looking(0, b)];
    assert map[0 := Looking(0, b), 1 := Looking(0, b)] == one[0 := Looking(0, b)];
    states, events := Then(states, events, Read(1, 0), Alone(b, map[], one[0 := Looking(0, b)], map[]));
    Sends(a, x, y, 0, 0, one, map[], map[], b);
    states, events := Then(states, events, Look(0), Alone(b, map[], one[0 := Sending(0, b)], map[]));
    var queued := map[0 := Run(Queued, true, [x])];
    states, events := Then(states, events, Event.Launch(0, Took, 0),
                           Alone(b, queued, one[0 := Recording(0, b, 0)], map[0 := 0]));
    assert [] + [0] == [0];
    Records(a, x, y, 0, 0, one, queued, map[0 := 0], b);
    var once := Backfill(a, [x, y], 1, [0], Going);
    states, events := Then(states, events, Record(0), Alone(once, queued, one, map[0 := 0]));
    var over := map[0 := Run(Success, true, [x])];
    states, events := Then(states, events, Ends(0, Success), Alone(once, over, one, map[0 := 0]));
    assert map[][1 := Looking(0, b)] == one;
    Sends(a, x, y, 1, 1, map[], over, map[0 := 0], once);
    states, events := Then(states, events, Look(1), Alone(once, over, map[1 := Sending(0, b)], map[0 := 0]));
    var both := over[1 := Run(Queued, true, [x])];
    states, events := Then(states, events, Event.Launch(1, Took, 1),
                           Alone(once, both, map[1 := Recording(0, b, 1)], map[0 := 0, 1 := 0]));
    assert [0] + [1] == [0, 1];
    Records(a, x, y, 1, 1, map[], both, map[0 := 0, 1 := 0], once);
    states, events := Then(states, events, Record(1),
                           Alone(Backfill(a, [x, y], 1, [0, 1], Going), both, map[], map[0 := 0, 1 := 0]));
  }

  /** A cancel between a read and its launch does not stop the chunk, and the closed record takes it. */
  lemma CancelledBackfillIsSent(a: Name, x: Key, y: Key) returns (states: seq<World>, events: seq<Event>)
    ensures Behaves(Ones(), states, events)
    ensures var s := states[|events|].store;
            s.records == [Backfill(a, [x, y], 1, [0], Stopped)] && s.runs == map[0 := Run(Queued, true, [x])]
  {
    states, events := Opens(a, x, y);
    var b := Begun(a, x, y);
    var closed := b.(status := Stopped);
    states, events := Then(states, events, Cancel(0), Alone(closed, map[], map[0 := Looking(0, b)], map[]));
    Sends(a, x, y, 0, 0, map[], map[], map[], closed);
    states, events := Then(states, events, Look(0), Alone(closed, map[], map[0 := Sending(0, b)], map[]));
    var queued := map[0 := Run(Queued, true, [x])];
    states, events := Then(states, events, Event.Launch(0, Took, 0),
                           Alone(closed, queued, map[0 := Recording(0, b, 0)], map[0 := 0]));
    assert [] + [0] == [0];
    Records(a, x, y, 0, 0, map[], queued, map[0 := 0], closed);
    states, events := Then(states, events, Record(0),
                           Alone(Backfill(a, [x, y], 1, [0], Stopped), queued, map[], map[0 := 0]));
  }

  /** A launch that could not be recorded is sent again: two runs of one chunk, and one of them on no record. */
  lemma UnrecordedChunkIsResent(a: Name, x: Key, y: Key) returns (states: seq<World>, events: seq<Event>)
    ensures Behaves(Ones(), states, events)
    ensures var s := states[|events|].store;
            && s.records == [Backfill(a, [x, y], 1, [1], Going)]
            && s.runs == map[0 := Run(Queued, true, [x]), 1 := Run(Queued, true, [x])]
  {
    states, events := Opens(a, x, y);
    var b := Begun(a, x, y);
    Sends(a, x, y, 0, 0, map[], map[], map[], b);
    states, events := Then(states, events, Look(0), Alone(b, map[], map[0 := Sending(0, b)], map[]));
    var queued := map[0 := Run(Queued, true, [x])];
    states, events := Then(states, events, Event.Launch(0, Took, 0),
                           Alone(b, queued, map[0 := Recording(0, b, 0)], map[0 := 0]));
    assert map[0 := Recording(0, b, 0)] - {0} == map[];
    states, events := Then(states, events, Lose(0), Alone(b, queued, map[], map[0 := 0]));
    states, events := Then(states, events, Read(1, 0), Alone(b, queued, map[1 := Looking(0, b)], map[0 := 0]));
    Sends(a, x, y, 1, 1, map[], queued, map[0 := 0], b);
    states, events := Then(states, events, Look(1), Alone(b, queued, map[1 := Sending(0, b)], map[0 := 0]));
    var both := queued[1 := Run(Queued, true, [x])];
    states, events := Then(states, events, Event.Launch(1, Took, 1),
                           Alone(b, both, map[1 := Recording(0, b, 1)], map[0 := 0, 1 := 0]));
    assert [] + [1] == [1];
    Records(a, x, y, 1, 1, map[], both, map[0 := 0, 1 := 0], b);
    states, events := Then(states, events, Record(1),
                           Alone(Backfill(a, [x, y], 1, [1], Going), both, map[], map[0 := 0, 1 := 0]));
  }
}
