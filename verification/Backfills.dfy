/**
 * Backfills (src/backfill.rs): a fixed range of keys built a chunk at a time,
 * each chunk one run, the next sent when the last has succeeded.
 */
module Backfills {
  import opened Prelude
  import opened Assets
  import opened Freshness
  import opened Plan

  type RunId = nat

  datatype RunStatus = Queued | Running | Success | Failure | Cancelled
  {
    predicate Over() { Success? || Failure? || Cancelled? }
  }

  // `kept` until retention drops the row.
  datatype Run = Run(status: RunStatus, kept: bool, chunk: seq<Key>)

  datatype BackfillStatus = Going | Complete | Failed | Stopped

  datatype Backfill = Backfill(asset: Name, keys: seq<Key>, launched: nat, runIds: seq<RunId>, status: BackfillStatus)

  /** The backfill table, whose ids are positions, and the runs table. */
  datatype Store = Store(records: seq<Backfill>, runs: map<RunId, Run>)

  /** What launching a chunk came to: a run, a conflict with a build already going, or an error. */
  datatype Launch = Took | Conflict | Refused

  /** Each asset's build limit, at least one by construction. */
  type Limits = Name -> nat

  predicate Floored(limits: Limits, a: Name) { limits(a) >= 1 }

  function Chunk(b: Backfill, limit: nat): seq<Key> {
    if b.launched > |b.keys| then []
    else if |b.keys| - b.launched <= limit then b.keys[b.launched..]
    else b.keys[b.launched..b.launched + limit]
  }

  // The first terminal status wins.
  function Close(s: Store, id: nat, status: BackfillStatus): Store
    requires id < |s.records|
  {
    if s.records[id].status.Going? then s.(records := s.records[id := s.records[id].(status := status)]) else s
  }

  /** Send the next chunk of a backfill as it was read, into the record as it now is. */
  function LaunchNext(s: Store, id: nat, read: Backfill, limit: nat, answer: Launch, run: RunId): Store
    requires id < |s.records|
  {
    var chunk := Chunk(read, limit);
    if chunk == [] then Close(s, id, Complete)
    else if !answer.Took? then s
    else
      Store(s.records[id := s.records[id].(launched := read.launched + |chunk|,
                                           runIds := s.records[id].runIds + [run])],
            s.runs[run := Run(Queued, true, chunk)])
  }

  function LastStatus(s: Store, b: Backfill): RunStatus
    requires b.runIds != []
  {
    var run := b.runIds[|b.runIds| - 1];
    if run in s.runs && s.runs[run].kept then s.runs[run].status else Failure
  }

  /** What one pass does about one record. */
  function Visit(s: Store, id: nat, limit: nat, answer: Launch, run: RunId): Store
    requires id < |s.records|
  {
    var b := s.records[id];
    if !b.status.Going? then s
    else if b.runIds == [] then LaunchNext(s, id, b, limit, answer, run)
    else
      match LastStatus(s, b)
      case Queued => s
      case Running => s
      case Success => if b.launched < |b.keys| then LaunchNext(s, id, b, limit, answer, run) else Close(s, id, Complete)
      case Failure => Close(s, id, Failed)
      case Cancelled => Close(s, id, Stopped)
  }

  // ----------------------------------------------------------- field by field

  /** The last run put on a record is still kept, and stands so. */
  ghost predicate LastIs(s: Store, b: Backfill, status: RunStatus) {
    && b.runIds != [] && b.runIds[|b.runIds| - 1] in s.runs
    && s.runs[b.runIds[|b.runIds| - 1]].kept && s.runs[b.runIds[|b.runIds| - 1]].status == status
  }

  /** Nothing has been launched yet, or what was launched last has succeeded. */
  ghost predicate MayLaunch(s: Store, b: Backfill) {
    b.status.Going? && (b.runIds == [] || LastIs(s, b, Success))
  }

  // There is a key left, and room for it in a chunk.
  ghost predicate HasNext(b: Backfill, limit: nat) {
    b.launched < |b.keys| && limit > 0
  }

  ghost function AtMost(left: int, limit: int): int {
    if left <= limit then left else limit
  }

  /** The next chunk of a record as read: as many of the keys left as the limit allows. */
  ghost predicate IsNext(read: Backfill, limit: nat, chunk: seq<Key>) {
    && |chunk| == AtMost(|read.keys| - read.launched, limit)
    && forall m: nat :: m < |chunk| ==> read.launched + m < |read.keys| && chunk[m] == read.keys[read.launched + m]
  }

  lemma NextIs(read: Backfill, limit: nat)
    ensures HasNext(read, limit) ==> IsNext(read, limit, Chunk(read, limit))
    ensures HasNext(read, limit) <==> Chunk(read, limit) != []
  {
  }

  ghost predicate ClosedAs(b: Backfill, b': Backfill, status: BackfillStatus) {
    && b'.status == status && b'.asset == b.asset && b'.keys == b.keys
    && b'.launched == b.launched && b'.runIds == b.runIds
  }

  // A chunk of what was read is on the record and queued as a run.
  ghost predicate SentAs(b: Backfill, b': Backfill, runs': map<RunId, Run>, read: Backfill, limit: nat, run: RunId) {
    && b'.status == b.status && b'.asset == b.asset && b'.keys == b.keys
    && b'.launched == read.launched + AtMost(|read.keys| - read.launched, limit)
    && |b'.runIds| == |b.runIds| + 1 && b'.runIds[..|b.runIds|] == b.runIds && b'.runIds[|b.runIds|] == run
    && run in runs' && runs'[run].status.Queued? && runs'[run].kept && IsNext(read, limit, runs'[run].chunk)
  }

  /**
   * What a pass makes of one record. One over, or whose last run is queued or
   * running, is left; one whose last run was cancelled is stopped; one whose last
   * run failed or is no longer kept is failed; one with nothing left to send is
   * complete; any other is sent its next chunk if the launch is taken, and left if
   * it is not.
   */
  ghost predicate Judged(s: Store, b: Backfill, b': Backfill, runs': map<RunId, Run>, limit: nat, answer: Launch,
                         run: RunId) {
    if !b.status.Going? || LastIs(s, b, Queued) || LastIs(s, b, Running) then b' == b
    else if LastIs(s, b, Cancelled) then ClosedAs(b, b', Stopped)
    else if b.runIds != [] && !LastIs(s, b, Success) then ClosedAs(b, b', Failed)
    else if !HasNext(b, limit) then ClosedAs(b, b', Complete)
    else if answer.Took? then SentAs(b, b', runs', b, limit, run)
    else b' == b
  }

  // Every other record as it was.
  ghost predicate OthersKept(s: Store, s': Store, id: nat) {
    |s'.records| == |s.records| && forall i :: 0 <= i < |s.records| && i != id ==> s'.records[i] == s.records[i]
  }

  // The runs table has gained this run, or nothing.
  ghost predicate GainsIf(runs: map<RunId, Run>, runs': map<RunId, Run>, gains: bool, run: RunId) {
    && (forall r :: r in runs' <==> r in runs || (gains && r == run))
    && forall r :: r in runs && !(gains && r == run) ==> runs'[r] == runs[r]
  }

  ghost predicate Launches(s: Store, b: Backfill, limit: nat, answer: Launch) {
    MayLaunch(s, b) && HasNext(b, limit) && answer.Took?
  }

  /** A visit, by what it does to the record, the others and the runs. */
  lemma VisitSays(s: Store, id: nat, limit: nat, answer: Launch, run: RunId)
    requires id < |s.records|
    ensures var s' := Visit(s, id, limit, answer, run);
            && OthersKept(s, s', id)
            && Judged(s, s.records[id], s'.records[id], s'.runs, limit, answer, run)
            && GainsIf(s.runs, s'.runs, Launches(s, s.records[id], limit, answer), run)
  {
    NextIs(s.records[id], limit);
  }

  /** Sending a chunk of a record as read into the record as it now is. */
  ghost predicate SendsNext(s: Store, s': Store, id: nat, read: Backfill, limit: nat, answer: Launch, run: RunId)
    requires id < |s.records|
  {
    && OthersKept(s, s', id) && GainsIf(s.runs, s'.runs, HasNext(read, limit) && answer.Took?, run)
    && if !HasNext(read, limit) && s.records[id].status.Going? then ClosedAs(s.records[id], s'.records[id], Complete)
       else if HasNext(read, limit) && answer.Took? then
         SentAs(s.records[id], s'.records[id], s'.runs, read, limit, run)
       else s'.records[id] == s.records[id]
  }

  lemma LaunchSays(s: Store, id: nat, read: Backfill, limit: nat, answer: Launch, run: RunId)
    requires id < |s.records|
    ensures SendsNext(s, LaunchNext(s, id, read, limit, answer, run), id, read, limit, answer, run)
  {
    NextIs(read, limit);
  }

  // ----------------------------------------------------------- what every step keeps

  /** The keys a list of runs was sent. */
  function Sent(runs: map<RunId, Run>, ids: seq<RunId>): seq<Key> {
    if ids == [] then []
    else
      var n := |ids| - 1;
      Sent(runs, ids[..n]) + if ids[n] in runs then runs[ids[n]].chunk else []
  }

  ghost predicate Chunked(limits: Limits, runs: map<RunId, Run>, b: Backfill) {
    && b.launched <= |b.keys| && Sent(runs, b.runIds) == b.keys[..b.launched]
    && (forall i :: 0 <= i < |b.runIds| ==> b.runIds[i] in runs && 1 <= |runs[b.runIds[i]].chunk| <= limits(b.asset))
    && |b.runIds| <= b.launched
  }

  ghost predicate InTurn(runs: map<RunId, Run>, b: Backfill) {
    forall i :: 0 <= i < |b.runIds| - 1 ==> b.runIds[i] in runs && runs[b.runIds[i]].status.Success?
  }

  ghost predicate Done(runs: map<RunId, Run>, b: Backfill) {
    b.launched == |b.keys| && forall i :: 0 <= i < |b.runIds| ==>
      b.runIds[i] in runs && runs[b.runIds[i]].status.Success?
  }

  ghost predicate RecordOk(limits: Limits, runs: map<RunId, Run>, b: Backfill) {
    Chunked(limits, runs, b) && InTurn(runs, b) && (b.status.Complete? ==> Done(runs, b))
  }

  // Two backfills of one asset are never both going.
  ghost predicate OnePerAsset(s: Store) {
    forall i, j :: 0 <= i < j < |s.records| && s.records[i].status.Going? && s.records[j].status.Going? ==>
      s.records[i].asset != s.records[j].asset
  }

  ghost predicate Inv(limits: Limits, s: Store) {
    (forall i :: 0 <= i < |s.records| ==> RecordOk(limits, s.runs, s.records[i])) && OnePerAsset(s)
  }

  // Runs only gain rows, or end.
  ghost predicate RunsKept(runs: map<RunId, Run>, runs': map<RunId, Run>) {
    forall r :: r in runs ==> r in runs' && runs'[r].chunk == runs[r].chunk && (runs[r].status.Over() ==>
      runs'[r].status == runs[r].status)
  }

  lemma {:induction false} SentKept(runs: map<RunId, Run>, runs': map<RunId, Run>, ids: seq<RunId>)
    requires RunsKept(runs, runs') && forall i :: 0 <= i < |ids| ==> ids[i] in runs
    ensures Sent(runs', ids) == Sent(runs, ids)
  {
    if ids != [] {
      SentKept(runs, runs', ids[..|ids| - 1]);
    }
  }

  lemma RecordKept(limits: Limits, runs: map<RunId, Run>, runs': map<RunId, Run>, b: Backfill)
    requires RecordOk(limits, runs, b) && RunsKept(runs, runs')
    ensures RecordOk(limits, runs', b)
  {
    SentKept(runs, runs', b.runIds);
  }

  lemma ClosedOk(limits: Limits, runs: map<RunId, Run>, b: Backfill, status: BackfillStatus)
    requires RecordOk(limits, runs, b) && (status.Complete? ==> Done(runs, b))
    ensures RecordOk(limits, runs, b.(status := status))
  {
  }

  lemma ChunkIsNext(b: Backfill, limit: nat)
    requires b.launched <= |b.keys|
    ensures b.keys[..b.launched] + Chunk(b, limit) == b.keys[..b.launched + |Chunk(b, limit)|]
    ensures |Chunk(b, limit)| <= limit
    ensures Chunk(b, limit) == [] <==> b.launched == |b.keys| || limit == 0
  {
  }

  // The record one more chunk leaves, its predecessor having succeeded.
  lemma LaunchedOk(limits: Limits, runs: map<RunId, Run>, b: Backfill, run: RunId)
    requires RecordOk(limits, runs, b) && Floored(limits, b.asset) && b.status.Going? && run !in runs
    requires forall i :: 0 <= i < |b.runIds| ==> runs[b.runIds[i]].status.Success?
    requires Chunk(b, limits(b.asset)) != []
    ensures var chunk := Chunk(b, limits(b.asset));
            RecordOk(limits, runs[run := Run(Queued, true, chunk)],
                     b.(launched := b.launched + |chunk|, runIds := b.runIds + [run]))
  {
    var chunk := Chunk(b, limits(b.asset));
    var runs' := runs[run := Run(Queued, true, chunk)];
    var ids := b.runIds + [run];
    SentKept(runs, runs', b.runIds);
    ChunkIsNext(b, limits(b.asset));
    assert ids[..|ids| - 1] == b.runIds;
  }

  ghost predicate OnlyRecord(s: Store, s': Store, id: nat)
    requires id < |s.records|
  {
    && |s'.records| == |s.records| && RunsKept(s.runs, s'.runs)
    && forall i :: 0 <= i < |s.records| && i != id ==> s'.records[i] == s.records[i]
  }

  lemma OneRecordKeeps(limits: Limits, s: Store, s': Store, id: nat)
    requires Inv(limits, s) && id < |s.records| && OnlyRecord(s, s', id)
    requires RecordOk(limits, s'.runs, s'.records[id])
    requires s'.records[id].asset == s.records[id].asset
    requires s'.records[id].status.Going? ==> s.records[id].status.Going?
    ensures Inv(limits, s')
  {
    forall i | 0 <= i < |s'.records| ensures RecordOk(limits, s'.runs, s'.records[i]) {
      if i != id {
        RecordKept(limits, s.runs, s'.runs, s.records[i]);
      }
    }
  }

  lemma AllSucceeded(limits: Limits, s: Store, id: nat)
    requires Inv(limits, s) && id < |s.records|
    requires s.records[id].runIds == [] || LastStatus(s, s.records[id]).Success?
    ensures forall i :: 0 <= i < |s.records[id].runIds| ==>
              s.records[id].runIds[i] in s.runs && s.runs[s.records[id].runIds[i]].status.Success?
  {
    assert RecordOk(limits, s.runs, s.records[id]);
  }

  lemma CloseKeepsInv(limits: Limits, s: Store, id: nat, status: BackfillStatus)
    requires Inv(limits, s) && id < |s.records| && !status.Going? && (status.Complete? ==> Done(s.runs, s.records[id]))
    ensures Inv(limits, Close(s, id, status))
  {
    if s.records[id].status.Going? {
      ClosedOk(limits, s.runs, s.records[id], status);
      OneRecordKeeps(limits, s, Close(s, id, status), id);
    }
  }

  lemma LaunchKeepsInv(limits: Limits, s: Store, id: nat, answer: Launch, run: RunId)
    requires Inv(limits, s) && id < |s.records| && Floored(limits, s.records[id].asset) && run !in s.runs
    requires s.records[id].status.Going?
    requires s.records[id].runIds == [] || LastStatus(s, s.records[id]).Success?
    ensures Inv(limits, LaunchNext(s, id, s.records[id], limits(s.records[id].asset), answer, run))
  {
    var b := s.records[id];
    assert RecordOk(limits, s.runs, b);
    AllSucceeded(limits, s, id);
    ChunkIsNext(b, limits(b.asset));
    if Chunk(b, limits(b.asset)) == [] {
      CloseKeepsInv(limits, s, id, Complete);
    } else if answer.Took? {
      LaunchedOk(limits, s.runs, b, run);
      TookKeepsInv(limits, s, id, run);
    }
  }

  lemma TookKeepsInv(limits: Limits, s: Store, id: nat, run: RunId)
    requires Inv(limits, s) && id < |s.records| && run !in s.runs
    requires Chunk(s.records[id], limits(s.records[id].asset)) != []
    requires var s' := LaunchNext(s, id, s.records[id], limits(s.records[id].asset), Took, run);
             RecordOk(limits, s'.runs, s'.records[id])
    ensures Inv(limits, LaunchNext(s, id, s.records[id], limits(s.records[id].asset), Took, run))
  {
    OneRecordKeeps(limits, s, LaunchNext(s, id, s.records[id], limits(s.records[id].asset), Took, run), id);
  }

  /** A pass over one record keeps the invariant. */
  lemma VisitKeepsInv(limits: Limits, s: Store, id: nat, answer: Launch, run: RunId)
    requires Inv(limits, s) && id < |s.records| && Floored(limits, s.records[id].asset) && run !in s.runs
    ensures Inv(limits, Visit(s, id, limits(s.records[id].asset), answer, run))
  {
    var b := s.records[id];
    if b.status.Going? {
      assert RecordOk(limits, s.runs, b);
      if b.runIds == [] {
        LaunchKeepsInv(limits, s, id, answer, run);
      } else if LastStatus(s, b).Success? {
        AllSucceeded(limits, s, id);
        if b.launched < |b.keys| {
          LaunchKeepsInv(limits, s, id, answer, run);
        } else {
          CloseKeepsInv(limits, s, id, Complete);
        }
      } else if LastStatus(s, b).Failure? {
        CloseKeepsInv(limits, s, id, Failed);
      } else if LastStatus(s, b).Cancelled? {
        CloseKeepsInv(limits, s, id, Stopped);
      }
    }
  }

  /** A new record: over at once when its range is empty. */
  function Created(s: Store, asset: Name, keys: seq<Key>): Store {
    s.(records := s.records + [Backfill(asset, keys, 0, [], if keys == [] then Complete else Going)])
  }

  predicate Busy(s: Store, asset: Name) {
    exists i :: 0 <= i < |s.records| && s.records[i].asset == asset && s.records[i].status.Going?
  }

  lemma CreateKeepsInv(limits: Limits, s: Store, asset: Name, keys: seq<Key>)
    requires Inv(limits, s) && !Busy(s, asset)
    ensures Inv(limits, Created(s, asset, keys))
  {
    var s' := Created(s, asset, keys);
    forall i | 0 <= i < |s'.records| ensures RecordOk(limits, s'.runs, s'.records[i]) {
      if i == |s.records| {
        assert s'.records[i].keys[..0] == [];
      }
    }
  }

  /** A start of an asset none of whose backfills is going keeps the invariant, whatever its first launch comes to. */
  lemma StartKeepsInv(limits: Limits, s: Store, asset: Name, keys: seq<Key>, answer: Launch, run: RunId)
    requires Inv(limits, s) && !Busy(s, asset) && Floored(limits, asset) && run !in s.runs
    ensures Inv(limits, Visit(Created(s, asset, keys), |s.records|, limits(asset), answer, run))
  {
    CreateKeepsInv(limits, s, asset, keys);
    VisitKeepsInv(limits, Created(s, asset, keys), |s.records|, answer, run);
  }

  /** A pass either leaves what was sent alone, or sends the next chunk, leaving strictly fewer keys to send. */
  lemma LaunchMakesProgress(limits: Limits, s: Store, id: nat, answer: Launch, run: RunId)
    requires Inv(limits, s) && id < |s.records| && Floored(limits, s.records[id].asset) && run !in s.runs
    ensures var s' := Visit(s, id, limits(s.records[id].asset), answer, run);
            var b, b' := s.records[id], s'.records[id];
            || (b'.runIds == b.runIds && b'.launched == b.launched && s'.runs == s.runs)
            || (b'.runIds == b.runIds + [run] && b.launched < b'.launched <= |b.keys|
                && b'.launched - b.launched <= limits(b.asset)
                && s'.runs[run].chunk == b.keys[b.launched..b'.launched])
    ensures !answer.Took? ==> Visit(s, id, limits(s.records[id].asset), answer, run).runs == s.runs
    ensures answer.Conflict? && Chunk(s.records[id], limits(s.records[id].asset)) != [] && s.records[id].status.Going?
            && (s.records[id].runIds == [] || LastStatus(s, s.records[id]).Success?)
            ==> Visit(s, id, limits(s.records[id].asset), answer, run) == s
  {
    assert RecordOk(limits, s.runs, s.records[id]);
    ChunkIsNext(s.records[id], limits(s.records[id].asset));
  }

  // ----------------------------------------------------------- the chunker

  /** A visit that launches and is answered with an error other than a conflict. */
  predicate Errs(s: Store, id: nat, limit: nat, answer: Launch)
    requires id < |s.records|
  {
    var b := s.records[id];
    && answer.Refused? && b.status.Going? && Chunk(b, limit) != []
    && (b.runIds == [] || (LastStatus(s, b).Success? && b.launched < |b.keys|))
  }

  lemma ErrsIff(s: Store, id: nat, limit: nat, answer: Launch)
    requires id < |s.records|
    ensures Errs(s, id, limit, answer) <==>
            answer.Refused? && MayLaunch(s, s.records[id]) && HasNext(s.records[id], limit)
  {
    NextIs(s.records[id], limit);
  }

  // What a pass has made of the store, and whether an error has ended it.
  datatype Swept = Swept(store: Store, ended: bool)

  /** One pass over the first `n` records, oldest first; the first launch that errs ends it. */
  function PassTo(s: Store, limits: Limits, answers: nat -> Launch, base: RunId, n: nat): (r: Swept)
    requires n <= |s.records|
    ensures |r.store.records| == |s.records|
  {
    if n == 0 then Swept(s, false)
    else
      var before := PassTo(s, limits, answers, base, n - 1);
      if before.ended then before
      else
        var limit := limits(before.store.records[n - 1].asset);
        Swept(Visit(before.store, n - 1, limit, answers(n - 1), base + n - 1),
              Errs(before.store, n - 1, limit, answers(n - 1)))
  }

  lemma PassOn(s: Store, limits: Limits, answers: nat -> Launch, base: RunId, n: nat)
    requires n < |s.records| && !PassTo(s, limits, answers, base, n).ended
    ensures var before := PassTo(s, limits, answers, base, n).store;
            var limit := limits(before.records[n].asset);
            && PassTo(s, limits, answers, base, n + 1)
               == Swept(Visit(before, n, limit, answers(n), base + n), Errs(before, n, limit, answers(n)))
            && (!before.records[n].status.Going? ==> PassTo(s, limits, answers, base, n + 1) == Swept(before, false))
  {
  }

  lemma {:induction false} NotPassedYet(s: Store, limits: Limits, answers: nat -> Launch, base: RunId, n: nat, id: nat)
    requires n <= id < |s.records|
    ensures PassTo(s, limits, answers, base, n).store.records[id] == s.records[id]
  {
    if n > 0 {
      NotPassedYet(s, limits, answers, base, n - 1, id);
    }
  }

  lemma VisitRuns(s: Store, id: nat, limit: nat, answer: Launch, run: RunId)
    requires id < |s.records|
    ensures forall r :: r in Visit(s, id, limit, answer, run).runs ==> r in s.runs || r == run
  {
  }

  lemma {:induction false} PassRuns(s: Store, limits: Limits, answers: nat -> Launch, base: RunId, n: nat)
    requires n <= |s.records| && forall r :: r in s.runs ==> r < base
    ensures forall r :: r in PassTo(s, limits, answers, base, n).store.runs ==> r < base + n
  {
    if n > 0 {
      PassRuns(s, limits, answers, base, n - 1);
      var before := PassTo(s, limits, answers, base, n - 1).store;
      VisitRuns(before, n - 1, limits(before.records[n - 1].asset), answers(n - 1), base + n - 1);
    }
  }

  // Whatever one visit under an unused run id keeps, a whole pass keeps.
  lemma {:induction false} PassPreserves(keeps: Store -> bool, s: Store, limits: Limits, answers: nat -> Launch,
                                         base: RunId, n: nat)
    requires keeps(s) && n <= |s.records| && forall r :: r in s.runs ==> r < base
    requires forall t: Store, id: nat, answer, run :: keeps(t) && id < |t.records| && run !in t.runs ==>
               keeps(Visit(t, id, limits(t.records[id].asset), answer, run))
    ensures keeps(PassTo(s, limits, answers, base, n).store)
  {
    if n > 0 {
      PassPreserves(keeps, s, limits, answers, base, n - 1);
      PassRuns(s, limits, answers, base, n - 1);
    }
  }

  /** A whole pass with nothing else going on, each launch under a run id of its own, keeps the invariant. */
  lemma PassKeepsInv(limits: Limits, s: Store, answers: nat -> Launch, base: RunId, n: nat)
    requires Inv(limits, s) && n <= |s.records| && (forall a :: Floored(limits, a))
    requires forall r :: r in s.runs ==> r < base
    ensures Inv(limits, PassTo(s, limits, answers, base, n).store)
  {
    var keeps := t => Inv(limits, t);
    forall t: Store, id: nat, answer, run | keeps(t) && id < |t.records| && run !in t.runs
      ensures keeps(Visit(t, id, limits(t.records[id].asset), answer, run))
    {
      assert Floored(limits, t.records[id].asset);
      VisitKeepsInv(limits, t, id, answer, run);
    }
    PassPreserves(keeps, s, limits, answers, base, n);
  }

  /** The run ids a pass hands out, from a base on, have never been used. */
  ghost predicate Unused(s: Store, base: RunId) {
    && (forall r :: r in s.runs ==> r < base)
    && forall i :: 0 <= i < |s.records| && s.records[i].runIds != [] ==>
         s.records[i].runIds[|s.records[i].runIds| - 1] < base
  }

  // The launch of this record would be an error.
  ghost predicate Errors(s: Store, limits: Limits, answers: nat -> Launch, id: nat)
    requires id < |s.records|
  {
    && answers(id).Refused? && MayLaunch(s, s.records[id])
    && HasNext(s.records[id], limits(s.records[id].asset))
  }

  ghost predicate LaunchesAt(s: Store, limits: Limits, answers: nat -> Launch, id: nat)
    requires id < |s.records|
  {
    Launches(s, s.records[id], limits(s.records[id].asset), answers(id))
  }

  // The runs of a pass: those there were, and one for each of the first `n` records that launched.
  ghost predicate RunsAfter(s: Store, runs': map<RunId, Run>, limits: Limits, answers: nat -> Launch, base: RunId,
                            n: nat)
    requires n <= |s.records|
  {
    && (forall r :: r in runs' <==> r in s.runs || (base <= r < base + n && LaunchesAt(s, limits, answers, r - base)))
    && forall r :: r in s.runs ==> runs'[r] == s.runs[r]
  }

  ghost predicate JudgedAt(s: Store, s': Store, limits: Limits, answers: nat -> Launch, base: RunId, id: nat)
    requires id < |s.records| && id < |s'.records|
  {
    Judged(s, s.records[id], s'.records[id], s'.runs, limits(s.records[id].asset), answers(id), base + id)
  }

  /** A pass that looked at the first `n` records: each judged by the store the pass began with, the rest left. */
  ghost predicate PassedOver(s: Store, s': Store, limits: Limits, answers: nat -> Launch, base: RunId, n: nat) {
    && n <= |s.records| == |s'.records|
    && (forall id {:trigger JudgedAt(s, s', limits, answers, base, id)} :: 0 <= id < n ==>
          JudgedAt(s, s', limits, answers, base, id))
    && (forall id :: n <= id < |s.records| ==> s'.records[id] == s.records[id])
    && RunsAfter(s, s'.runs, limits, answers, base, n)
  }

  /** A whole pass: every record, oldest first, up to the first whose launch is an error. */
  ghost predicate Ticked(s: Store, s': Store, limits: Limits, answers: nat -> Launch, base: RunId, failed: bool) {
    if failed then
      exists n :: 0 <= n < |s.records| && EndsAt(s, limits, answers, n)
                  && PassedOver(s, s', limits, answers, base, n + 1)
    else
      && (forall id :: 0 <= id < |s.records| ==> !Errors(s, limits, answers, id))
      && PassedOver(s, s', limits, answers, base, |s.records|)
  }

  ghost predicate EndsAt(s: Store, limits: Limits, answers: nat -> Launch, n: nat)
    requires n < |s.records|
  {
    Errors(s, limits, answers, n) && forall id :: 0 <= id < n ==> !Errors(s, limits, answers, id)
  }

  // A run put on record before the pass reads the same in it.
  lemma LastStands(s: Store, t: Store, limits: Limits, answers: nat -> Launch, base: RunId, n: nat, id: nat,
                   status: RunStatus)
    requires Unused(s, base) && PassedOver(s, t, limits, answers, base, n) && n <= id < |s.records|
    ensures LastIs(t, t.records[id], status) <==> LastIs(s, s.records[id], status)
  {
  }

  lemma JudgedAlike(s: Store, t: Store, b: Backfill, b': Backfill, runs': map<RunId, Run>, limit: nat, answer: Launch,
                    run: RunId)
    requires forall status :: LastIs(t, b, status) <==> LastIs(s, b, status)
    ensures Judged(t, b, b', runs', limit, answer, run) <==> Judged(s, b, b', runs', limit, answer, run)
    ensures Launches(t, b, limit, answer) <==> Launches(s, b, limit, answer)
    ensures MayLaunch(t, b) <==> MayLaunch(s, b)
  {
  }

  // More runs under other ids leave what was judged as it was.
  lemma StillJudged(s: Store, t: Store, s': Store, limits: Limits, answers: nat -> Launch, base: RunId, id: nat)
    requires id < |s.records| && id < |t.records| && id < |s'.records| && s'.records[id] == t.records[id]
    requires JudgedAt(s, t, limits, answers, base, id)
    requires base + id in t.runs ==> base + id in s'.runs && s'.runs[base + id] == t.runs[base + id]
    ensures JudgedAt(s, s', limits, answers, base, id)
  {
  }

  lemma RunsFurther(s: Store, runs: map<RunId, Run>, runs': map<RunId, Run>, limits: Limits, answers: nat -> Launch,
                    base: RunId, n: nat)
    requires Unused(s, base) && n < |s.records| && RunsAfter(s, runs, limits, answers, base, n)
    requires GainsIf(runs, runs', LaunchesAt(s, limits, answers, n), base + n)
    ensures RunsAfter(s, runs', limits, answers, base, n + 1)
  {
  }

  lemma PassedFurther(s: Store, t: Store, s': Store, limits: Limits, answers: nat -> Launch, base: RunId, n: nat)
    requires Unused(s, base) && n < |s.records| && PassedOver(s, t, limits, answers, base, n) && OthersKept(t, s', n)
    requires GainsIf(t.runs, s'.runs, LaunchesAt(s, limits, answers, n), base + n)
    requires JudgedAt(s, s', limits, answers, base, n)
    ensures PassedOver(s, s', limits, answers, base, n + 1)
  {
    RunsFurther(s, t.runs, s'.runs, limits, answers, base, n);
    forall id | 0 <= id < n ensures JudgedAt(s, s', limits, answers, base, id) {
      assert JudgedAt(s, t, limits, answers, base, id);
      StillJudged(s, t, s', limits, answers, base, id);
    }
  }

  // What a visit does to a record whose last run stands as it did.
  lemma VisitAsBegun(s: Store, t: Store, limits: Limits, answers: nat -> Launch, base: RunId, n: nat)
    requires n < |s.records| == |t.records| && t.records[n] == s.records[n]
    requires forall status :: LastIs(t, s.records[n], status) <==> LastIs(s, s.records[n], status)
    ensures var limit := limits(s.records[n].asset);
            var s' := Visit(t, n, limit, answers(n), base + n);
            && OthersKept(t, s', n) && JudgedAt(s, s', limits, answers, base, n)
            && GainsIf(t.runs, s'.runs, LaunchesAt(s, limits, answers, n), base + n)
            && (Errs(t, n, limit, answers(n)) <==> Errors(s, limits, answers, n))
  {
    var b := s.records[n];
    var limit := limits(b.asset);
    var s' := Visit(t, n, limit, answers(n), base + n);
    VisitSays(t, n, limit, answers(n), base + n);
    ErrsIff(t, n, limit, answers(n));
    JudgedAlike(s, t, b, s'.records[n], s'.runs, limit, answers(n), base + n);
  }

  /** One record further. */
  lemma OneFurther(s: Store, t: Store, limits: Limits, answers: nat -> Launch, base: RunId, n: nat)
    requires Unused(s, base) && PassedOver(s, t, limits, answers, base, n) && n < |s.records|
    ensures var limit := limits(s.records[n].asset);
            && t.records[n] == s.records[n]
            && PassedOver(s, Visit(t, n, limit, answers(n), base + n), limits, answers, base, n + 1)
            && (Errs(t, n, limit, answers(n)) <==> Errors(s, limits, answers, n))
  {
    var limit := limits(s.records[n].asset);
    forall status ensures LastIs(t, s.records[n], status) <==> LastIs(s, s.records[n], status) {
      LastStands(s, t, limits, answers, base, n, n, status);
    }
    VisitAsBegun(s, t, limits, answers, base, n);
    PassedFurther(s, t, Visit(t, n, limit, answers(n), base + n), limits, answers, base, n);
  }

  // The pass has ended at an error, or has come this far without one.
  ghost predicate SweptTo(s: Store, r: Swept, limits: Limits, answers: nat -> Launch, base: RunId, n: nat)
    requires n <= |s.records|
  {
    if r.ended then
      exists m :: 0 <= m < n && EndsAt(s, limits, answers, m) && PassedOver(s, r.store, limits, answers, base, m + 1)
    else
      (forall id :: 0 <= id < n ==> !Errors(s, limits, answers, id))
      && PassedOver(s, r.store, limits, answers, base, n)
  }

  lemma SweptFurther(s: Store, t: Store, s': Store, errs: bool, limits: Limits, answers: nat -> Launch, base: RunId,
                     n: nat)
    requires n < |s.records| && SweptTo(s, Swept(t, false), limits, answers, base, n)
    requires PassedOver(s, s', limits, answers, base, n + 1) && (errs <==> Errors(s, limits, answers, n))
    ensures SweptTo(s, Swept(s', errs), limits, answers, base, n + 1)
  {
    if errs {
      assert EndsAt(s, limits, answers, n);
    }
  }

  lemma SweptStays(s: Store, r: Swept, limits: Limits, answers: nat -> Launch, base: RunId, n: nat)
    requires n < |s.records| && r.ended && SweptTo(s, r, limits, answers, base, n)
    ensures SweptTo(s, r, limits, answers, base, n + 1)
  {
  }

  lemma SweptOn(s: Store, t: Store, limits: Limits, answers: nat -> Launch, base: RunId, n: nat)
    requires Unused(s, base) && n < |s.records| && |t.records| == |s.records|
    requires SweptTo(s, Swept(t, false), limits, answers, base, n)
    ensures var limit := limits(t.records[n].asset);
            SweptTo(s, Swept(Visit(t, n, limit, answers(n), base + n), Errs(t, n, limit, answers(n))), limits, answers,
                    base, n + 1)
  {
    OneFurther(s, t, limits, answers, base, n);
    var limit := limits(t.records[n].asset);
    var s' := Visit(t, n, limit, answers(n), base + n);
    SweptFurther(s, t, s', Errs(t, n, limit, answers(n)), limits, answers, base, n);
  }

  lemma NothingSwept(s: Store, limits: Limits, answers: nat -> Launch, base: RunId)
    ensures SweptTo(s, Swept(s, false), limits, answers, base, 0)
  {
  }

  lemma PassIs(s: Store, limits: Limits, answers: nat -> Launch, base: RunId, n: nat)
    requires n < |s.records|
    ensures PassTo(s, limits, answers, base, n + 1)
         == Onward(PassTo(s, limits, answers, base, n), limits, answers, base, n)
  {
  }

  // Whatever holds before a pass, and one record further whenever it holds before that, holds after it.
  lemma {:induction false} PassHolds(holds: (Swept, nat) -> bool, s: Store, limits: Limits, answers: nat -> Launch,
                                     base: RunId, n: nat)
    requires n <= |s.records| && holds(Swept(s, false), 0)
    requires forall r: Swept, m: nat :: m < |s.records| == |r.store.records| && holds(r, m) ==>
               holds(Onward(r, limits, answers, base, m), m + 1)
    ensures holds(PassTo(s, limits, answers, base, n), n)
  {
    if n > 0 {
      PassHolds(holds, s, limits, answers, base, n - 1);
      PassIs(s, limits, answers, base, n - 1);
    }
  }

  // One record further, unless the pass has ended.
  function Onward(r: Swept, limits: Limits, answers: nat -> Launch, base: RunId, n: nat): Swept
    requires n < |r.store.records|
  {
    if r.ended then r
    else
      var limit := limits(r.store.records[n].asset);
      Swept(Visit(r.store, n, limit, answers(n), base + n), Errs(r.store, n, limit, answers(n)))
  }

  /** A pass is what it makes of every record the store it began with holds. */
  lemma PassSays(s: Store, limits: Limits, answers: nat -> Launch, base: RunId, n: nat)
    requires Unused(s, base) && n <= |s.records|
    ensures SweptTo(s, PassTo(s, limits, answers, base, n), limits, answers, base, n)
  {
    var holds := (r: Swept, m: nat) => m <= |s.records| && SweptTo(s, r, limits, answers, base, m);
    NothingSwept(s, limits, answers, base);
    forall r: Swept, m: nat | m < |s.records| == |r.store.records| && holds(r, m)
      ensures holds(Onward(r, limits, answers, base, m), m + 1)
    {
      OneOnward(s, r, limits, answers, base, m);
    }
    PassHolds(holds, s, limits, answers, base, n);
  }

  lemma TickSays(s: Store, limits: Limits, answers: nat -> Launch, base: RunId)
    ensures var r := PassTo(s, limits, answers, base, |s.records|);
            Unused(s, base) ==> Ticked(s, r.store, limits, answers, base, r.ended)
  {
    if Unused(s, base) {
      PassSays(s, limits, answers, base, |s.records|);
    }
  }

  lemma OneOnward(s: Store, r: Swept, limits: Limits, answers: nat -> Launch, base: RunId, n: nat)
    requires Unused(s, base) && n < |s.records| == |r.store.records| && SweptTo(s, r, limits, answers, base, n)
    ensures SweptTo(s, Onward(r, limits, answers, base, n), limits, answers, base, n + 1)
  {
    if r.ended {
      SweptStays(s, r, limits, answers, base, n);
    } else {
      assert r == Swept(r.store, false);
      SweptOn(s, r.store, limits, answers, base, n);
    }
  }

  lemma {:induction false} EndedStays(s: Store, limits: Limits, answers: nat -> Launch, base: RunId, n: nat, m: nat)
    requires n <= m <= |s.records| && PassTo(s, limits, answers, base, n).ended
    ensures PassTo(s, limits, answers, base, m) == PassTo(s, limits, answers, base, n)
  {
    if n < m {
      EndedStays(s, limits, answers, base, n, m - 1);
    }
  }

  ghost predicate OldestGoing(s: Store, id: nat) {
    id < |s.records| && s.records[id].status.Going? && forall i :: 0 <= i < id ==> !s.records[i].status.Going?
  }

  lemma {:induction false} NothingBefore(s: Store, limits: Limits, answers: nat -> Launch, base: RunId, n: nat)
    requires n <= |s.records| && forall i :: 0 <= i < n ==> !s.records[i].status.Going?
    ensures PassTo(s, limits, answers, base, n) == Swept(s, false)
  {
    if n > 0 {
      NothingBefore(s, limits, answers, base, n - 1);
    }
  }

  /**
   * A backfill whose launch always errs starves the younger ones: while it is
   * the oldest going, every pass ends at it with the store untouched, however
   * ready the others are.
   */
  lemma {:induction false} ErringOldestStarves(s: Store, limits: Limits, answers: nat -> Launch, base: RunId, id: nat,
                                               n: nat)
    requires OldestGoing(s, id) && Errs(s, id, limits(s.records[id].asset), answers(id)) && id < n <= |s.records|
    ensures PassTo(s, limits, answers, base, n) == Swept(s, true)
  {
    if n == id + 1 {
      NothingBefore(s, limits, answers, base, id);
    } else {
      ErringOldestStarves(s, limits, answers, base, id, n - 1);
    }
  }

  // ----------------------------------------------------------- starting one

  datatype StartError =
    | UnknownAsset
    | NotPartitioned
    | StillRunning(id: nat)
    | BadRange
    | Unheld(key: Key)
    | LaunchFailed(id: nat)

  function First(keys: seq<Key>, k: Key): (i: nat)
    requires k in keys
    ensures i < |keys| && keys[i] == k && k !in keys[..i]
  {
    if keys[0] == k then 0
    else
      assert keys == [keys[0]] + keys[1..];
      var i := 1 + First(keys[1..], k);
      assert keys[..i] == [keys[0]] + keys[1..][..i - 1];
      i
  }

  /** The keys from one to another, both held and in that order. */
  function RangeOf(keys: seq<Key>, from: Key, to: Key): Option<seq<Key>> {
    if from in keys && to in keys && First(keys, from) <= First(keys, to)
    then Some(keys[First(keys, from)..First(keys, to) + 1])
    else None
  }

  /** A key's first place in a set. */
  ghost predicate FirstAt(keys: seq<Key>, k: Key, i: nat) {
    i < |keys| && keys[i] == k && forall m :: 0 <= m < i ==> keys[m] != k
  }

  /** The places of two keys of a set, the one no later than the other. */
  ghost predicate Spans(keys: seq<Key>, from: Key, to: Key, i: nat, j: nat) {
    FirstAt(keys, from, i) && FirstAt(keys, to, j) && i <= j
  }

  /** The keys from the one place to the other, both of them included. */
  ghost predicate Between(keys: seq<Key>, i: nat, j: nat, range: seq<Key>) {
    && i <= j < |keys| && |range| == j - i + 1
    && forall m :: 0 <= m < |range| ==> range[m] == keys[i + m]
  }

  ghost predicate HasRange(keys: seq<Key>, from: Key, to: Key, range: seq<Key>) {
    exists i: nat, j: nat :: Spans(keys, from, to, i, j) && Between(keys, i, j, range)
  }

  lemma FirstIs(keys: seq<Key>, k: Key, i: nat)
    requires k in keys
    ensures FirstAt(keys, k, i) <==> i == First(keys, k)
  {
    var f := First(keys, k);
    assert forall m :: 0 <= m < f ==> keys[m] == keys[..f][m];
  }

  lemma NoRange(keys: seq<Key>, from: Key, to: Key)
    requires RangeOf(keys, from, to).None?
    ensures forall i: nat, j: nat :: !Spans(keys, from, to, i, j)
  {
    forall i: nat, j: nat ensures !Spans(keys, from, to, i, j) {
      if from in keys && to in keys {
        FirstIs(keys, from, i);
        FirstIs(keys, to, j);
      }
    }
  }

  /** There is a range iff both ends are held, the one no later than the other; and then it is what lies between. */
  lemma RangeSays(keys: seq<Key>, from: Key, to: Key)
    ensures RangeOf(keys, from, to).Some? <==> exists i: nat, j: nat :: Spans(keys, from, to, i, j)
    ensures RangeOf(keys, from, to).Some? ==>
              var range := RangeOf(keys, from, to).value;
              && HasRange(keys, from, to, range) && range != [] && range[0] == from && range[|range| - 1] == to
  {
    if RangeOf(keys, from, to).None? {
      NoRange(keys, from, to);
    } else {
      var i, j := First(keys, from), First(keys, to);
      FirstIs(keys, from, i);
      FirstIs(keys, to, j);
      assert Spans(keys, from, to, i, j) && Between(keys, i, j, RangeOf(keys, from, to).value);
    }
  }

  /** A set that holds each key once has one range between two places, and no choice of places. */
  lemma RangeWithoutRepeats(keys: seq<Key>, i: nat, j: nat)
    requires i < |keys| && j < |keys| && forall a, b :: 0 <= a < b < |keys| ==> keys[a] != keys[b]
    ensures RangeOf(keys, keys[i], keys[j]).Some? <==> i <= j
    ensures i <= j ==> Between(keys, i, j, RangeOf(keys, keys[i], keys[j]).value)
  {
    FirstIs(keys, keys[i], i);
    FirstIs(keys, keys[j], j);
  }

  // Those still owed, at these places of the range: in its order, each place once, and none left out.
  ghost predicate PickedAt(range: seq<Key>, owed: Key -> bool, keys: seq<Key>, places: seq<nat>) {
    PickedBefore(range, owed, keys, places, |range|)
  }

  // Of the places before this one.
  ghost predicate PickedBefore(range: seq<Key>, owed: Key -> bool, keys: seq<Key>, places: seq<nat>, end: nat) {
    && |keys| == |places| && end <= |range|
    && (forall m :: 0 <= m < |places| ==> places[m] < end && keys[m] == range[places[m]] && owed(keys[m]))
    && (forall m, n :: 0 <= m < n < |places| ==> places[m] < places[n])
    && forall p: nat :: p < end && owed(range[p]) ==> p in places
  }

  ghost predicate Picked(range: seq<Key>, owed: Key -> bool, keys: seq<Key>) {
    exists places :: PickedAt(range, owed, keys, places)
  }

  /** Just those still owed. */
  lemma PickedOwed(range: seq<Key>, owed: Key -> bool, keys: seq<Key>)
    requires Picked(range, owed, keys)
    ensures forall k :: k in keys <==> k in range && owed(k)
  {
    var places :| PickedAt(range, owed, keys, places);
    forall k | k in range && owed(k) ensures k in keys {
      var p: nat :| p < |range| && range[p] == k;
      var m :| 0 <= m < |places| && places[m] == p;
      assert keys[m] == k;
    }
  }

  /** The keys a backfill is made over: the range, or the part of it still owed. */
  ghost predicate RecordsKeys(held: seq<Key>, from: Key, to: Key, onlyMissing: bool, owed: Key -> bool,
                              keys: seq<Key>) {
    if onlyMissing then exists range :: HasRange(held, from, to, range) && Picked(range, owed, keys)
    else HasRange(held, from, to, keys)
  }

  /** An asset that is there, has partitions and no backfill going, and a range every key of which has its windows. */
  ghost predicate CanStart(reg: Registry, sets: Sets, s: Store, asset: Name, from: Key, to: Key)
    requires reg.NamesIndexed() && SetsFor(reg, sets)
  {
    && asset in reg.byName && reg.Meta(asset).partitions.Some?
    && (forall b :: b in s.records && b.asset == asset ==> !b.status.Going?)
    && exists range :: HasRange(sets[asset], from, to, range)
                       && forall k :: k in range ==> HasWindows(sets, reg.Meta(asset).deps, reg.Meta(asset).maps, k)
  }

  lemma OneRange(keys: seq<Key>, from: Key, to: Key, a: seq<Key>)
    requires HasRange(keys, from, to, a)
    ensures RangeOf(keys, from, to) == Some(a)
  {
    var i: nat, j: nat :| Spans(keys, from, to, i, j) && Between(keys, i, j, a);
    FirstIs(keys, from, i);
    FirstIs(keys, to, j);
    assert a == keys[i..j + 1];
  }

  /** Exactly those starts are accepted. */
  lemma StartsIff(reg: Registry, sets: Sets, s: Store, asset: Name, from: Key, to: Key)
    requires reg.NamesIndexed() && SetsFor(reg, sets)
    ensures Starts(reg, sets, s, asset, from, to) <==> CanStart(reg, sets, s, asset, from, to)
  {
    if asset in reg.byName && reg.Meta(asset).partitions.Some? {
      var m := reg.Meta(asset);
      forall k ensures KeyBuildable(reg, sets, asset, k) <==> HasWindows(sets, m.deps, m.maps, k) {
        BuildableIff(sets, m.deps, m.maps, k);
      }
      assert Busy(s, asset) <==> exists b :: b in s.records && b.asset == asset && b.status.Going?;
      RangeSays(sets[asset], from, to);
      forall range | HasRange(sets[asset], from, to, range) ensures RangeOf(sets[asset], from, to) == Some(range) {
        OneRange(sets[asset], from, to, range);
      }
    }
  }

  /** What a start leaves when it is accepted: its record at the end, and its first chunk if the launch is taken. */
  ghost predicate Started(s: Store, s': Store, asset: Name, keys: seq<Key>, limit: nat, answer: Launch, run: RunId) {
    && |s'.records| == |s.records| + 1 && s'.records[..|s.records|] == s.records
    && var b := s'.records[|s.records|];
       && b.asset == asset && b.keys == keys
       && (b.status.Complete? <==> keys == [] || limit == 0) && (!b.status.Complete? ==> b.status.Going?)
       && var sends := keys != [] && limit > 0 && answer.Took?;
          && GainsIf(s.runs, s'.runs, sends, run)
          && if sends then
               && b.launched == AtMost(|keys|, limit) && b.runIds == [run]
               && s'.runs[run] == Run(Queued, true, keys[..b.launched])
             else b.launched == 0 && b.runIds == []
  }

  lemma StartedSays(s: Store, asset: Name, keys: seq<Key>, limit: nat, answer: Launch, run: RunId)
    ensures Started(s, Visit(Created(s, asset, keys), |s.records|, limit, answer, run), asset, keys, limit, answer, run)
    ensures Errs(Created(s, asset, keys), |s.records|, limit, answer) <==> keys != [] && limit > 0 && answer.Refused?
  {
    var t := Created(s, asset, keys);
    var s' := Visit(t, |s.records|, limit, answer, run);
    assert s'.records[..|s.records|] == s.records;
  }

  predicate KeyBuildable(reg: Registry, sets: Sets, asset: Name, k: Key)
    requires reg.NamesIndexed() && asset in reg.byName
  {
    Buildable(sets, reg.Meta(asset).deps, reg.Meta(asset).maps, k)
  }

  /** Why a start is refused with nothing written, in the order it is found out. */
  ghost predicate Refuses(reg: Registry, sets: Sets, s: Store, asset: Name, from: Key, to: Key, error: StartError)
    requires reg.NamesIndexed() && SetsFor(reg, sets)
  {
    if asset !in reg.byName then error.UnknownAsset?
    else if reg.Meta(asset).partitions.None? then error.NotPartitioned?
    else if Busy(s, asset) then
      && error.StillRunning? && error.id < |s.records|
      && s.records[error.id].asset == asset && s.records[error.id].status.Going?
    else if RangeOf(sets[asset], from, to).None? then error.BadRange?
    else error.Unheld? && error.key in RangeOf(sets[asset], from, to).value && !KeyBuildable(reg, sets, asset,
                                                                                             error.key)
  }

  /** A start is accepted: a partitioned asset, none of its backfills going, a range that can be built. */
  ghost predicate Starts(reg: Registry, sets: Sets, s: Store, asset: Name, from: Key, to: Key)
    requires reg.NamesIndexed() && SetsFor(reg, sets)
  {
    && asset in reg.byName && reg.Meta(asset).partitions.Some? && !Busy(s, asset)
    && RangeOf(sets[asset], from, to).Some?
    && forall k :: k in RangeOf(sets[asset], from, to).value ==> KeyBuildable(reg, sets, asset, k)
  }

  class Chunker {
    var records: seq<Backfill>
    var runs: map<RunId, Run>
    const limits: Limits

    ghost function State(): Store
      reads this
    {
      Store(records, runs)
    }

    constructor (limits: Limits)
      ensures State() == Store([], map[]) && this.limits == limits
    {
      records, runs := [], map[];
      this.limits := limits;
    }

    method CloseRecord(id: nat, status: BackfillStatus)
      requires id < |records|
      modifies this
      ensures State() == Close(old(State()), id, status)
    {
      if records[id].status.Going? {
        records := records[id := records[id].(status := status)];
      }
    }

    /** The next chunk of a backfill as it was read; a conflict changes nothing and the next pass tries again. */
    method SendNext(id: nat, read: Backfill, answer: Launch, run: RunId) returns (failed: bool)
      requires id < |records|
      modifies this
      ensures State() == LaunchNext(old(State()), id, read, limits(read.asset), answer, run)
      ensures failed <==> answer.Refused? && Chunk(read, limits(read.asset)) != []
    {
      var limit := limits(read.asset);
      var left := if read.launched <= |read.keys| then read.keys[read.launched..] else [];
      var chunk := if |left| <= limit then left else left[..limit];
      assert chunk == Chunk(read, limit);
      if chunk == [] {
        CloseRecord(id, Complete);
        return false;
      }
      if answer != Took {
        return answer == Refused;
      }
      runs := runs[run := Run(Queued, true, chunk)];
      records := records[id := records[id].(launched := read.launched + |chunk|, runIds := records[id].runIds + [run])];
      return false;
    }

    /** One pass over the backfills going when it begins, ended by the first launch that errs. */
    method Tick(answers: nat -> Launch, base: RunId) returns (failed: bool)
      modifies this
      ensures Swept(State(), failed) == PassTo(old(State()), limits, answers, base, |old(records)|)
      ensures Unused(old(State()), base) ==> Ticked(old(State()), State(), limits, answers, base, failed)
    {
      ghost var s := State();
      TickSays(s, limits, answers, base);
      var read := records;
      for id := 0 to |read|
        invariant read == s.records && Swept(State(), false) == PassTo(s, limits, answers, base, id)
      {
        NotPassedYet(s, limits, answers, base, id, id);
        PassOn(s, limits, answers, base, id);
        if read[id].status.Going? {
          failed := VisitOne(id, read[id], answers(id), base + id);
          if failed {
            EndedStays(s, limits, answers, base, id + 1, |read|);
            return true;
          }
        }
      }
      return false;
    }

    method VisitOne(id: nat, read: Backfill, answer: Launch, run: RunId) returns (failed: bool)
      requires id < |records| && read == records[id] && read.status.Going?
      modifies this
      ensures State() == Visit(old(State()), id, limits(read.asset), answer, run)
      ensures failed <==> Errs(old(State()), id, limits(read.asset), answer)
    {
      failed := false;
      if read.runIds == [] {
        failed := SendNext(id, read, answer, run);
        return;
      }
      var last := read.runIds[|read.runIds| - 1];
      var status := if last in runs && runs[last].kept then runs[last].status else Failure;
      match status {
        case Queued =>
        case Running =>
        case Success =>
          if read.launched < |read.keys| {
            failed := SendNext(id, read, answer, run);
          } else {
            CloseRecord(id, Complete);
          }
        case Failure => CloseRecord(id, Failed);
        case Cancelled => CloseRecord(id, Stopped);
      }
    }

    /** Stop a backfill: no further chunk goes out. One already over is left alone. */
    method Stop(id: nat) returns (r: Option<bool>)
      modifies this
      ensures r.None? <==> id >= |old(records)|
      ensures r.Some? ==> (r.value <==> old(records)[id].status.Going?)
      ensures State() == if id < |old(records)| then Close(old(State()), id, Stopped) else old(State())
      ensures runs == old(runs) && |records| == |old(records)|
      ensures forall i :: 0 <= i < |records| ==>
                if i == id && old(records)[i].status.Going? then ClosedAs(old(records)[i], records[i], Stopped)
                else records[i] == old(records)[i]
    {
      if id >= |records| {
        return None;
      }
      if !records[id].status.Going? {
        return Some(false);
      }
      CloseRecord(id, Stopped);
      return Some(true);
    }

    // The first of the asset's backfills still going.
    method GoingFor(asset: Name) returns (r: Option<nat>)
      ensures r.Some? <==> Busy(State(), asset)
      ensures r.Some? ==> r.value < |records| && records[r.value].asset == asset && records[r.value].status.Going?
    {
      for i := 0 to |records|
        invariant forall k :: 0 <= k < i ==> !(records[k].asset == asset && records[k].status.Going?)
      {
        if records[i].asset == asset && records[i].status.Going? {
          return Some(i);
        }
      }
      return None;
    }

    /**
     * Start a backfill over the keys between two, or over those of them still
     * owed; the first chunk goes out at once if nothing is in its way. An error
     * launching it is returned with the record made and left for the next pass.
     */
    method Start(reg: Registry, sets: Sets, asset: Name, from: Key, to: Key, onlyMissing: bool, owed: Key -> bool,
                 answer: Launch, run: RunId)
      returns (r: Result<nat, StartError>, ghost keys: seq<Key>)
      requires reg.NamesIndexed() && SetsFor(reg, sets)
      modifies this
      ensures !Starts(reg, sets, old(State()), asset, from, to) ==>
                State() == old(State()) && r.Err? && Refuses(reg, sets, old(State()), asset, from, to, r.error)
      ensures Starts(reg, sets, old(State()), asset, from, to) ==>
                && (forall k :: k in keys <==> k in RangeOf(sets[asset], from, to).value && (onlyMissing ==> owed(k)))
                && (!onlyMissing ==> keys == RangeOf(sets[asset], from, to).value)
                && State() == Visit(Created(old(State()), asset, keys), |old(records)|, limits(asset), answer, run)
                && r == if Errs(Created(old(State()), asset, keys), |old(records)|, limits(asset), answer)
                        then Err(LaunchFailed(|old(records)|)) else Ok(|old(records)|)
      ensures !CanStart(reg, sets, old(State()), asset, from, to) ==> State() == old(State()) && r.Err?
      ensures CanStart(reg, sets, old(State()), asset, from, to) ==>
                && RecordsKeys(sets[asset], from, to, onlyMissing, owed, keys)
                && Started(old(State()), State(), asset, keys, limits(asset), answer, run)
                && r == if keys != [] && limits(asset) > 0 && answer.Refused? then Err(LaunchFailed(|old(records)|))
                        else Ok(|old(records)|)
    {
      StartsIff(reg, sets, State(), asset, from, to);

      keys := [];
      if asset !in reg.byName {
        return Err(StartError.UnknownAsset), keys;
      }
      if reg.Meta(asset).partitions.None? {
        return Err(StartError.NotPartitioned), keys;
      }
      var going := GoingFor(asset);
      if going.Some? {
        return Err(StillRunning(going.value)), keys;
      }
      var range := RangeOf(sets[asset], from, to);
      if range.None? {
        return Err(BadRange), keys;
      }
      var unheld := FirstUnheld(sets, reg.Meta(asset).deps, reg.Meta(asset).maps, range.value);
      if unheld.Some? {
        return Err(Unheld(unheld.value)), keys;
      }
      RangeSays(sets[asset], from, to);
      var chosen := range.value;
      if onlyMissing {
        chosen := Owed(range.value, owed);
        PickedOwed(range.value, owed, chosen);
      }
      keys := chosen;
      StartedSays(State(), asset, keys, limits(asset), answer, run);
      var id := |records|;
      records := records + [Backfill(asset, chosen, 0, [], if chosen == [] then Complete else Going)];
      if records[id].status.Going? {
        var failed := SendNext(id, records[id], answer, run);
        if failed {
          return Err(LaunchFailed(id)), keys;
        }
      }
      return Ok(id), keys;
    }
  }

  method FirstUnheld(sets: Sets, deps: seq<Name>, maps: map<Name, Mapping>, keys: seq<Key>) returns (r: Option<Key>)
    ensures r.None? <==> forall k :: k in keys ==> Buildable(sets, deps, maps, k)
    ensures r.Some? ==> r.value in keys && !Buildable(sets, deps, maps, r.value)
  {
    for i := 0 to |keys|
      invariant forall j :: 0 <= j < i ==> Buildable(sets, deps, maps, keys[j])
    {
      var missing := Plan.Unheld(sets, deps, maps, keys[i]);
      if missing.Some? {
        assert keys[i] in keys;
        return Some(keys[i]);
      }
    }
    return None;
  }

  method Owed(range: seq<Key>, owed: Key -> bool) returns (keys: seq<Key>)
    ensures Picked(range, owed, keys)
  {
    keys := [];
    ghost var places: seq<nat> := [];
    for i := 0 to |range|
      invariant PickedBefore(range, owed, keys, places, i)
    {
      if owed(range[i]) {
        keys := keys + [range[i]];
        places := places + [i];
        assert i == places[|places| - 1];
      }
    }
    assert PickedAt(range, owed, keys, places);
  }
}
