/**
 * Deliveries over whole runs (src/delivery_store.rs): any number of processes
 * claiming, settling, reconciling, controlling and pruning in any order, with
 * whatever registry each happens to hold and whatever a receiver answers.
 */
module DeliveryRuns {
  import opened Prelude
  import opened Deliveries
  import opened DeliveryInvariant

  datatype Event =
    | Queue(run: RunId, routes: map<DestId, Route>)
    | Move(run: RunId, status: RunStatus, ids: map<DestId, Id>)
    | Sweep(run: RunId, ids: map<DestId, Id>)
    | Claim(registry: Registry, only: Option<RunId>, token: Token, claimed: Option<Claimed>)
    | Answered(claim: Claimed, answer: Answer)
    | Visit(registry: Registry, id: Id)
    | Order(registry: Registry, id: Id, generation: nat, retry: bool)
    | Clear(older: int)
    | Wait

  /** A step at time `at`: one transaction, begun no earlier than the last. */
  ghost predicate Step(db: Db, e: Event, at: int, db': Db) {
    at >= db.clock && Effect(db, e, at, db')
  }

  ghost predicate Effect(db: Db, e: Event, at: int, db': Db) {
    match e
    case Queue(run, routes) => run !in db.runs && ValidRoutes(routes) && db' == QueueRun(db, run, routes, at)
    case Move(run, status, ids) => Moves(db, run, status, ids, at, db')
    case Sweep(run, ids) => Finishes(db, db', run, ids, at)
    case Claim(registry, only, token, claimed) =>
      token !in db.issued && UniqueSinks(registry) && Claims(db, db', registry, only, at, token, claimed)
    case Answered(claim, answer) => Answers(db, claim, answer, at, db')
    case Visit(registry, id) => Visits(db, registry, id, at, db')
    case Order(registry, id, generation, retry) => Orders(db, registry, id, generation, retry, at, db')
    case Clear(older) => db' == Prune(db, older, at)
    case Wait => db' == db.(clock := at)
  }

  predicate ValidRoutes(routes: map<DestId, Route>) {
    forall d :: d in routes ==> routes[d].policy.attempts >= 1
  }

  // A run's status moves until it is terminal, and reaching that delivers in the same transaction.
  ghost predicate Moves(db: Db, run: RunId, status: RunStatus, ids: map<DestId, Id>, at: int, db': Db) {
    run in db.runs && !db.runs[run].Terminal() && Finishes(db.(runs := db.runs[run := status]), db', run, ids, at)
  }

  ghost predicate Orders(db: Db, registry: Registry, id: Id, generation: nat, retry: bool, at: int, db': Db) {
    if Judge(db, registry, id, generation, retry).Some? then db' == db.(clock := at)
    else id in db.deliveries && db' == Control(db, id, retry, at)
  }

  // Only a claim that was handed out can be settled; past its fence nothing is written.
  ghost predicate Answers(db: Db, claim: Claimed, answer: Answer, at: int, db': Db) {
    && claim.token in db.issued && db.issued[claim.token] == claim
    && (answer.Nack? && answer.due.Some? ==> answer.due.value >= at)
    && if Fenced(db, claim, at)
       then (claim.id, claim.row.attempts) in db.attempts && db' == Settle(db, claim, answer, at)
       else db' == db.(clock := at)
  }

  ghost predicate Visits(db: Db, registry: Registry, id: Id, at: int, db': Db) {
    if id !in db.deliveries then db' == db.(clock := at)
    else
      && (db.deliveries[id].data.state.InFlight? ==> (id, db.deliveries[id].data.attempts) in db.attempts)
      && db' == Reconcile(db, registry, id, at)
  }

  // ----------------------------------------------------------- the invariant, always

  lemma ClaimKeepsInv(db: Db, db': Db, registry: Registry, only: Option<RunId>, at: int, token: Token,
                      claimed: Option<Claimed>)
    requires Inv(db) && at >= db.clock && token !in db.issued && Claims(db, db', registry, only, at, token, claimed)
    ensures Inv(db')
  {
    match claimed
    case None => TickKeepsInv(db, at);
    case Some(c) =>
      var skipped :| Takes(db, db', registry, only, at, token, c, skipped);
      TakeKeepsInv(db, c.id, skipped, at, token);
  }

  lemma MoveKeepsInv(db: Db, run: RunId, status: RunStatus, ids: map<DestId, Id>, at: int, db': Db)
    requires Inv(db) && at >= db.clock && run in db.runs
    requires Finishes(db.(runs := db.runs[run := status]), db', run, ids, at)
    ensures Inv(db')
  {
    var moved := db.(runs := db.runs[run := status]);
    SameTables(db, moved);
    assert Conserved(moved);
    FinishKeepsInv(moved, db', run, ids, at);
  }

  lemma AnswerKeepsInv(db: Db, claim: Claimed, answer: Answer, at: int, db': Db)
    requires Inv(db) && at >= db.clock && Answers(db, claim, answer, at, db')
    ensures Inv(db')
  {
    if Fenced(db, claim, at) {
      SettleKeepsInv(db, claim, answer, at);
    } else {
      TickKeepsInv(db, at);
    }
  }

  lemma VisitKeepsInv(db: Db, registry: Registry, id: Id, at: int, db': Db)
    requires Inv(db) && at >= db.clock && Visits(db, registry, id, at, db')
    ensures Inv(db')
  {
    if id in db.deliveries {
      ReconcileKeepsInv(db, registry, id, at);
    } else {
      TickKeepsInv(db, at);
    }
  }

  lemma OrderKeepsInv(db: Db, registry: Registry, id: Id, generation: nat, retry: bool, at: int)
    requires Inv(db) && at >= db.clock
    ensures Judge(db, registry, id, generation, retry).None? ==> id in db.deliveries && Inv(Control(db, id, retry, at))
    ensures Inv(db.(clock := at))
  {
    TickKeepsInv(db, at);
    if Judge(db, registry, id, generation, retry).None? {
      ControlKeepsInv(db, registry, id, generation, retry, at);
    }
  }

  lemma StepKeepsInv(db: Db, e: Event, at: int, db': Db)
    requires Inv(db) && Step(db, e, at, db')
    ensures Inv(db')
  {
    match e
    case Queue(run, routes) => QueueKeepsInv(db, run, routes, at);
    case Move(run, status, ids) => MoveKeepsInv(db, run, status, ids, at, db');
    case Sweep(run, ids) => FinishKeepsInv(db, db', run, ids, at);
    case Claim(registry, only, token, claimed) => ClaimKeepsInv(db, db', registry, only, at, token, claimed);
    case Answered(claim, answer) => AnswerKeepsInv(db, claim, answer, at, db');
    case Visit(registry, id) => VisitKeepsInv(db, registry, id, at, db');
    case Order(registry, id, generation, retry) => OrderKeepsInv(db, registry, id, generation, retry, at);
    case Clear(older) => PruneKeepsInv(db, older, at);
    case Wait => TickKeepsInv(db, at);
  }

  /** States, and between each pair the event that led from one to the next and when. */
  datatype Run = Run(states: seq<Db>, events: seq<Event>, times: seq<int>)

  ghost predicate Starts(db: Db) {
    && db.deliveries == map[] && db.attempts == map[] && db.destinations == map[]
    && db.routes == map[] && db.runs == map[] && db.issued == map[]
  }

  ghost predicate Behaves(r: Run) {
    && |r.states| == |r.events| + 1 == |r.times| + 1 && Starts(r.states[0])
    && forall k :: 0 <= k < |r.events| ==> Step(r.states[k], r.events[k], r.times[k], r.states[k + 1])
  }

  lemma {:induction false} InvThroughout(r: Run, k: nat)
    requires Behaves(r) && k < |r.states|
    ensures Inv(r.states[k])
  {
    if k > 0 {
      InvThroughout(r, k - 1);
      assert Step(r.states[k - 1], r.events[k - 1], r.times[k - 1], r.states[k - 1 + 1]);
      StepKeepsInv(r.states[k - 1], r.events[k - 1], r.times[k - 1], r.states[k]);
    }
  }

  ghost predicate Flying(db: Db, id: Id) {
    id in db.deliveries && db.deliveries[id].data.state.InFlight? && db.deliveries[id].expires.Some?
    && db.deliveries[id].expires.value > db.clock
  }

  /** In every state of every run, two deliveries in flight to one destination are never both within their leases. */
  lemma LeasesExclude(r: Run, k: nat, a: Id, b: Id)
    requires Behaves(r) && k < |r.states| && Flying(r.states[k], a) && Flying(r.states[k], b)
    requires DestOf(r.states[k], a) == DestOf(r.states[k], b)
    ensures a == b
  {
    InvThroughout(r, k);
    OneInFlight(r.states[k], a, b);
  }

  /** An answer that passes the fence finds the row exactly as it was claimed. */
  lemma NoUpdateIsLost(r: Run, k: nat)
    requires Behaves(r) && k < |r.events| && r.events[k].Answered? && Fenced(r.states[k], r.events[k].claim, r.times[k])
    ensures r.states[k].deliveries[r.events[k].claim.id].data == r.events[k].claim.row
  {
    InvThroughout(r, k);
    assert Step(r.states[k], r.events[k], r.times[k], r.states[k + 1]);
    FenceMeansUnchanged(r.states[k], r.events[k].claim, r.times[k]);
  }

  // ----------------------------------------------------------- how one row moves

  /** Attempts a delivery can still make without an operator. */
  function Remaining(data: Delivery): nat {
    if (Owed(data.state) || data.state.InFlight?) && data.cycleAttempts <= data.policy.attempts
    then data.policy.attempts - data.cycleAttempts
    else 0
  }

  /** A change of a row: it raises the generation, keeps the identity, and never starts from a settled state. */
  predicate Advances(was: Delivery, now: Delivery) {
    now.generation > was.generation && SameIdentity(was, now) && !Settled(was.state)
  }

  /** Attempts made and attempts left do not grow together: only a retry adds to them. */
  predicate Spends(was: Delivery, now: Delivery) {
    && Remaining(now) <= Remaining(was) && was.attempts <= now.attempts
    && now.attempts + Remaining(now) <= was.attempts + Remaining(was)
  }

  lemma TakenMoves(row: Row)
    requires RowOk(row) && row.data.state.Pending?
    ensures Advances(row.data, TakenData(row.data)) && Spends(row.data, TakenData(row.data))
    ensures Remaining(TakenData(row.data)) == Remaining(row.data) - 1
  {
  }

  lemma SettledMoves(row: Row, answer: Answer, at: int)
    requires RowOk(row) && row.data.state.InFlight?
    ensures Advances(row.data, SettledData(row.data, answer, at)) && Spends(row.data, SettledData(row.data, answer, at))
  {
  }

  lemma ReconciledMoves(registry: Registry, row: Row, at: int)
    requires RowOk(row) && !StillLeased(row, at)
    ensures var now := ReconciledRow(registry, row, at).data;
            now == row.data || (Advances(row.data, now) && Spends(row.data, now))
  {
  }

  lemma ControlledMoves(row: Row, retry: bool, at: int)
    requires RowOk(row) && (if retry then row.data.state.Failed? else row.data.state.Failed? || Owed(row.data.state))
    ensures Advances(row.data, ControlledData(row.data, retry, at))
    ensures !retry ==> Spends(row.data, ControlledData(row.data, retry, at))
  {
  }

  /** A claim's lease outlasts the call it is for: whatever its timeout, time is left to record the answer. */
  lemma LeaseOutlastsCall(row: Row, at: int, token: Token)
    ensures TakenRow(row, at, token).expires.Some?
    ensures TakenRow(row, at, token).expires.value >= at + row.data.policy.timeout + 20000
    ensures TakenRow(row, at, token).expires.value >= at + 30000
  {
  }

  /**
   * What an answer comes to: delivered iff accepted, tried again iff it may be,
   * there is a time for it and attempts are left.
   */
  lemma AnswerDecides(row: Row, answer: Answer, at: int)
    requires RowOk(row) && row.data.state.InFlight?
    ensures var now := SettledData(row.data, answer, at);
            && (now.state.Delivered? <==> answer.Ack?)
            && (now.state.Pending? <==> answer.Nack? && answer.retry && answer.due.Some? && Remaining(row.data) > 0)
            && (now.state.Pending? ==> now.nextAttempt == answer.due && Remaining(now) == Remaining(row.data))
            && (now.state.Failed? <==> !now.state.Delivered? && !now.state.Pending?)
  {
  }

  /**
   * A lapsed lease is given up: the row waits again at once iff attempts are left
   * and its sink is there, and is failed iff none are.
   */
  lemma LapseDecides(registry: Registry, row: Row, at: int)
    requires RowOk(row) && Lapsed(row, at)
    ensures var now := ReconciledRow(registry, row, at).data;
            && (now.state.Failed? <==> Remaining(row.data) == 0)
            && (now.state.Pending? <==> Remaining(row.data) > 0 && Compatible(registry, row.data.destination,
                                                                              row.data.protocol))
            && (!now.state.Failed? ==> now.nextAttempt == Some(at))
            && ReconciledRow(registry, row, at).claim.None?
  {
  }

  // An operator's retry of this row, taken.
  predicate Retries(e: Event, id: Id) {
    e.Order? && e.id == id && e.retry
  }

  predicate Moved(was: Delivery, now: Delivery, retried: bool) {
    now == was || (Advances(was, now) && (retried || Spends(was, now)))
  }

  lemma ClaimMoves(db: Db, db': Db, registry: Registry, only: Option<RunId>, at: int, token: Token,
                   claimed: Option<Claimed>, id: Id)
    requires Rows(db) && Claims(db, db', registry, only, at, token, claimed) && id in db.deliveries
    ensures id in db'.deliveries && Moved(db.deliveries[id].data, db'.deliveries[id].data, false)
  {
    if claimed.Some? {
      var skipped :| Takes(db, db', registry, only, at, token, claimed.value, skipped);
      assert RowOk(db.deliveries[claimed.value.id]);
      TakenMoves(db.deliveries[claimed.value.id]);
    }
  }

  lemma AnswerMoves(db: Db, claim: Claimed, answer: Answer, at: int, db': Db, id: Id)
    requires Inv(db) && Answers(db, claim, answer, at, db') && id in db.deliveries
    ensures id in db'.deliveries && Moved(db.deliveries[id].data, db'.deliveries[id].data, false)
  {
    if Fenced(db, claim, at) {
      FenceMeansUnchanged(db, claim, at);
      assert RowOk(db.deliveries[claim.id]);
      SettledMoves(db.deliveries[claim.id], answer, at);
    }
  }

  lemma VisitMoves(db: Db, registry: Registry, visited: Id, at: int, db': Db, id: Id)
    requires Rows(db) && Visits(db, registry, visited, at, db') && id in db.deliveries
    ensures id in db'.deliveries && Moved(db.deliveries[id].data, db'.deliveries[id].data, false)
  {
    if visited in db.deliveries && !StillLeased(db.deliveries[visited], at) {
      assert RowOk(db.deliveries[visited]);
      ReconciledMoves(registry, db.deliveries[visited], at);
    }
  }

  lemma OrderMoves(db: Db, registry: Registry, ordered: Id, generation: nat, retry: bool, at: int, db': Db, id: Id)
    requires Rows(db) && Orders(db, registry, ordered, generation, retry, at, db') && id in db.deliveries
    ensures id in db'.deliveries && Moved(db.deliveries[id].data, db'.deliveries[id].data, retry && ordered == id)
  {
    if Judge(db, registry, ordered, generation, retry).None? {
      assert RowOk(db.deliveries[ordered]);
      ControlledMoves(db.deliveries[ordered], retry, at);
    }
  }

  lemma FinishKeepsRow(db: Db, db': Db, run: RunId, ids: map<DestId, Id>, at: int, id: Id)
    requires Finishes(db, db', run, ids, at) && id in db.deliveries
    ensures id in db'.deliveries && db'.deliveries[id] == db.deliveries[id]
  {
  }

  /**
   * Whatever the step, a row that is still there is the same or has moved on:
   * a higher generation, never out of a settled state, and with no attempts
   * gained unless an operator retried it.
   */
  lemma StepMoves(db: Db, e: Event, at: int, db': Db, id: Id)
    requires Inv(db) && Step(db, e, at, db') && id in db.deliveries && id in db'.deliveries
    ensures Moved(db.deliveries[id].data, db'.deliveries[id].data, Retries(e, id))
  {
    match e
    case Queue(run, routes) =>
    case Move(run, status, ids) => FinishKeepsRow(db.(runs := db.runs[run := status]), db', run, ids, at, id);
    case Sweep(run, ids) => FinishKeepsRow(db, db', run, ids, at, id);
    case Claim(registry, only, token, claimed) => ClaimMoves(db, db', registry, only, at, token, claimed, id);
    case Answered(claim, answer) => AnswerMoves(db, claim, answer, at, db', id);
    case Visit(registry, visited) => VisitMoves(db, registry, visited, at, db', id);
    case Order(registry, ordered, generation, retry) => OrderMoves(db, registry, ordered, generation, retry, at, db',
                                                                   id);
    case Clear(older) =>
    case Wait =>
  }

  // ----------------------------------------------------------- a row over a run

  ghost predicate Present(r: Run, i: nat, j: nat, id: Id) {
    i <= j < |r.states| && forall k :: i <= k <= j ==> id in r.states[k].deliveries
  }

  function DataAt(db: Db, id: Id): Delivery
    requires id in db.deliveries
  {
    db.deliveries[id].data
  }

  lemma RunMoves(r: Run, k: nat, id: Id)
    requires Behaves(r) && k < |r.events| && id in r.states[k].deliveries && id in r.states[k + 1].deliveries
    ensures Moved(DataAt(r.states[k], id), DataAt(r.states[k + 1], id), Retries(r.events[k], id))
  {
    InvThroughout(r, k);
    assert Step(r.states[k], r.events[k], r.times[k], r.states[k + 1]);
    StepMoves(r.states[k], r.events[k], r.times[k], r.states[k + 1], id);
  }

  // The row's steps, each one a move, without the store around it.
  ghost predicate MovesOver(r: Run, i: nat, j: nat, id: Id)
    requires Present(r, i, j, id) && |r.states| == |r.events| + 1
  {
    forall k :: i <= k < j ==> MovesAt(r, k, id)
  }

  ghost predicate MovesAt(r: Run, k: nat, id: Id)
    requires k < |r.events| && |r.states| == |r.events| + 1
  {
    && id in r.states[k].deliveries && id in r.states[k + 1].deliveries
    && Moved(DataAt(r.states[k], id), DataAt(r.states[k + 1], id), Retries(r.events[k], id))
  }

  lemma RowMovesOver(r: Run, i: nat, j: nat, id: Id)
    requires Behaves(r) && Present(r, i, j, id)
    ensures MovesOver(r, i, j, id)
  {
    forall k | i <= k < j ensures MovesAt(r, k, id) {
      assert id in r.states[k].deliveries && id in r.states[k + 1].deliveries;
      RunMoves(r, k, id);
    }
  }

  lemma {:induction false} MovesRise(r: Run, i: nat, j: nat, id: Id)
    requires |r.states| == |r.events| + 1 && Present(r, i, j, id) && MovesOver(r, i, j, id)
    ensures DataAt(r.states[j], id) == DataAt(r.states[i], id) ||
            DataAt(r.states[j], id).generation > DataAt(r.states[i], id).generation
  {
    if i < j {
      MovesRise(r, i, j - 1, id);
      assert MovesAt(r, j - 1, id);
    }
  }

  /** Over a run a row's generation never falls, and it says whether anything changed. */
  lemma GenerationsRise(r: Run, i: nat, j: nat, id: Id)
    requires Behaves(r) && Present(r, i, j, id)
    ensures DataAt(r.states[j], id) == DataAt(r.states[i], id) ||
            DataAt(r.states[j], id).generation > DataAt(r.states[i], id).generation
  {
    RowMovesOver(r, i, j, id);
    MovesRise(r, i, j, id);
  }

  /** Of two controls that name one generation of a row, the second is refused. */
  lemma OneControlEach(r: Run, i: nat, j: nat, id: Id)
    requires Behaves(r) && i < j < |r.events| && Present(r, i, j, id)
    requires r.events[i].Order? && r.events[j].Order? && r.events[i].id == r.events[j].id == id
    requires r.events[i].generation == r.events[j].generation
    requires Judge(r.states[i], r.events[i].registry, id, r.events[i].generation, r.events[i].retry).None?
    ensures Judge(r.states[j], r.events[j].registry, id, r.events[j].generation, r.events[j].retry) == Some(Changed)
  {
    assert Step(r.states[i], r.events[i], r.times[i], r.states[i + 1]);
    assert DataAt(r.states[i + 1], id).generation == DataAt(r.states[i], id).generation + 1;
    assert Present(r, i + 1, j, id);
    GenerationsRise(r, i + 1, j, id);
  }

  lemma {:induction false} MovesAbsorb(r: Run, i: nat, j: nat, id: Id)
    requires |r.states| == |r.events| + 1 && Present(r, i, j, id) && MovesOver(r, i, j, id)
    requires Settled(DataAt(r.states[i], id).state)
    ensures DataAt(r.states[j], id) == DataAt(r.states[i], id)
  {
    if i < j {
      MovesAbsorb(r, i, j - 1, id);
      assert MovesAt(r, j - 1, id);
    }
  }

  /** Delivered and dismissed are for good: the record never changes again. */
  lemma SettledAbsorbs(r: Run, i: nat, j: nat, id: Id)
    requires Behaves(r) && Present(r, i, j, id) && Settled(DataAt(r.states[i], id).state)
    ensures DataAt(r.states[j], id) == DataAt(r.states[i], id)
  {
    RowMovesOver(r, i, j, id);
    MovesAbsorb(r, i, j, id);
  }

  lemma {:induction false} MovesSpend(r: Run, i: nat, j: nat, id: Id)
    requires |r.states| == |r.events| + 1 && Present(r, i, j, id) && MovesOver(r, i, j, id)
    requires forall k :: i <= k < j ==> !Retries(r.events[k], id)
    ensures Spends(DataAt(r.states[i], id), DataAt(r.states[j], id))
  {
    if i < j {
      MovesSpend(r, i, j - 1, id);
      assert MovesAt(r, j - 1, id) && !Retries(r.events[j - 1], id);
    }
  }

  /** Without an operator's retry, a row makes no more attempts than it had left. */
  lemma AttemptsRunOut(r: Run, i: nat, j: nat, id: Id)
    requires Behaves(r) && Present(r, i, j, id) && forall k :: i <= k < j ==> !Retries(r.events[k], id)
    ensures Spends(DataAt(r.states[i], id), DataAt(r.states[j], id))
  {
    RowMovesOver(r, i, j, id);
    MovesSpend(r, i, j, id);
  }

  ghost predicate AcceptedAt(db: Db, id: Id, n: nat) {
    (id, n) in db.attempts && db.attempts[(id, n)].outcome.Accepted?
  }

  /** Every attempt of a row is in the ledger, exactly one of them accepted once it is delivered and none before. */
  lemma LedgerThroughout(r: Run, k: nat, id: Id)
    requires Behaves(r) && k < |r.states| && id in r.states[k].deliveries
    ensures forall n :: (id, n) in r.states[k].attempts <==> 1 <= n <= DataAt(r.states[k], id).attempts
    ensures (exists n :: AcceptedAt(r.states[k], id, n)) <==> DataAt(r.states[k], id).state.Delivered?
    ensures forall n, m :: AcceptedAt(r.states[k], id, n) && AcceptedAt(r.states[k], id, m) ==> n == m
    ensures (exists n :: (id, n) in r.states[k].attempts && r.states[k].attempts[(id, n)].outcome.Open?)
            <==> DataAt(r.states[k], id).state.InFlight?
    ensures DataAt(r.states[k], id).attempts <= DataAt(r.states[k], id).cycle * DataAt(r.states[k], id).policy.attempts
  {
    InvThroughout(r, k);
    var db := r.states[k];
    var data := DataAt(db, id);
    assert Ledger(id, data, db.attempts) && RowOk(db.deliveries[id]);
    AttemptsBounded(db, id);
    if data.attempts > 0 {
      assert Entered(db.attempts[(id, data.attempts)], data.attempts, data);
      assert data.state.Delivered? <==> AcceptedAt(db, id, data.attempts);
    }
    forall n | (id, n) in db.attempts ensures Entered(db.attempts[(id, n)], n, data) {
    }
  }

  /** The answer its claim brought back settles an open attempt. */
  ghost predicate SettledBy(db: Db, e: Event, at: int, db': Db, key: (Id, nat))
    requires key in db.attempts && key in db'.attempts
  {
    && e.Answered? && e.claim.id == key.0 && Fenced(db, e.claim, at)
    && db.attempts[key].outcome.Open? && db'.attempts[key] == SettledAttempt(db.attempts[key], e.answer, at)
  }

  /** A visit that finds its lease run out gives an open attempt up as unknown. */
  ghost predicate GivenUpBy(db: Db, e: Event, at: int, db': Db, key: (Id, nat))
    requires key in db.attempts && key in db'.attempts
  {
    && e.Visit? && e.id == key.0 && key.0 in db.deliveries && Lapsed(db.deliveries[key.0], at)
    && db.attempts[key].outcome.Open?
    && db'.attempts[key] == db.attempts[key].(finishedAt := Some(at), outcome := Unknown, error := Some(LeaseExpired))
  }

  lemma TakeAddsAttempt(db: Db, id: Id, skipped: set<DestId>, at: int, token: Token, key: (Id, nat))
    requires Inv(db) && id in db.deliveries && key in db.attempts
    ensures key in Take(db, id, skipped, at, token).attempts
    ensures Take(db, id, skipped, at, token).attempts[key] == db.attempts[key]
  {
    assert Ledger(id, db.deliveries[id].data, db.attempts);
  }

  lemma SettleClosesOpen(db: Db, e: Event, at: int, db': Db, key: (Id, nat))
    requires Inv(db) && e.Answered? && Answers(db, e.claim, e.answer, at, db') && key in db.attempts
    ensures key in db'.attempts && (db'.attempts[key] == db.attempts[key] || SettledBy(db, e, at, db', key))
  {
    if Fenced(db, e.claim, at) {
      FenceMeansUnchanged(db, e.claim, at);
    }
  }

  lemma VisitClosesOpen(db: Db, e: Event, at: int, db': Db, key: (Id, nat))
    requires Inv(db) && e.Visit? && Visits(db, e.registry, e.id, at, db') && key in db.attempts
    ensures key in db'.attempts && (db'.attempts[key] == db.attempts[key] || GivenUpBy(db, e, at, db', key))
  {
    if e.id in db.deliveries && db.deliveries[e.id].data.state.InFlight? {
      var data := db.deliveries[e.id].data;
      assert Ledger(e.id, data, db.attempts);
      assert Entered(db.attempts[(e.id, data.attempts)], data.attempts, data);
    }
  }

  lemma ClaimAddsAttempt(db: Db, e: Event, at: int, db': Db, key: (Id, nat))
    requires Inv(db) && e.Claim? && Claims(db, db', e.registry, e.only, at, e.token, e.claimed) && key in db.attempts
    ensures key in db'.attempts && db'.attempts[key] == db.attempts[key]
  {
    if e.claimed.Some? {
      var skipped :| Takes(db, db', e.registry, e.only, at, e.token, e.claimed.value, skipped);
      TakeAddsAttempt(db, e.claimed.value.id, skipped, at, e.token, key);
    }
  }

  // The other steps write no attempt, and prune none of a row that stays.
  lemma OthersKeepAttempts(db: Db, e: Event, at: int, db': Db, key: (Id, nat))
    requires Effect(db, e, at, db') && !e.Claim? && !e.Answered? && !e.Visit? && key in db.attempts
    requires key.0 in db'.deliveries
    ensures key in db'.attempts && db'.attempts[key] == db.attempts[key]
  {
  }

  /** A step changes no line of the ledger but an open one, and that only by settling it or giving it up. */
  lemma StepClosesOpen(db: Db, e: Event, at: int, db': Db, key: (Id, nat))
    requires Inv(db) && Step(db, e, at, db') && key in db.attempts && key.0 in db'.deliveries
    ensures key in db'.attempts
    ensures db'.attempts[key] == db.attempts[key] || SettledBy(db, e, at, db', key) || GivenUpBy(db, e, at, db', key)
  {
    if e.Claim? {
      ClaimAddsAttempt(db, e, at, db', key);
    } else if e.Answered? {
      SettleClosesOpen(db, e, at, db', key);
    } else if e.Visit? {
      VisitClosesOpen(db, e, at, db', key);
    } else {
      OthersKeepAttempts(db, e, at, db', key);
    }
  }

  /** An attempt closes once: settled or given up, it is never written again while its row is there. */
  lemma {:induction false} ClosedAttemptsStay(r: Run, i: nat, j: nat, id: Id, n: nat)
    requires Behaves(r) && Present(r, i, j, id) && (id, n) in r.states[i].attempts
    requires !r.states[i].attempts[(id, n)].outcome.Open?
    ensures (id, n) in r.states[j].attempts && r.states[j].attempts[(id, n)] == r.states[i].attempts[(id, n)]
  {
    if i < j {
      ClosedAttemptsStay(r, i, j - 1, id, n);
      InvThroughout(r, j - 1);
      assert Step(r.states[j - 1], r.events[j - 1], r.times[j - 1], r.states[j - 1 + 1]);
      StepClosesOpen(r.states[j - 1], r.events[j - 1], r.times[j - 1], r.states[j], (id, n));
    }
  }

  // ----------------------------------------------------------- spacing

  lemma TakeMovesOn(db: Db, id: Id, skipped: set<DestId>, at: int, token: Token, d: DestId)
    requires id in db.deliveries && Ready(db, at, DestOf(db, id)) && d in db.destinations
    ensures d in Take(db, id, skipped, at, token).destinations
    ensures Take(db, id, skipped, at, token).destinations[d].nextAt >= db.destinations[d].nextAt
  {
  }

  /** A destination's next time never moves back while its row is there. */
  lemma StepNeverBack(db: Db, e: Event, at: int, db': Db, d: DestId)
    requires Step(db, e, at, db') && d in db.destinations && d in db'.destinations
    ensures db'.destinations[d].nextAt >= db.destinations[d].nextAt
  {
    match e
    case Claim(registry, only, token, claimed) =>
      if claimed.Some? {
        var skipped :| Takes(db, db', registry, only, at, token, claimed.value, skipped);
        TakeMovesOn(db, claimed.value.id, skipped, at, token, d);
      }
    case Queue(run, routes) =>
    case Move(run, status, ids) =>
    case Sweep(run, ids) =>
    case Answered(claim, answer) =>
    case Visit(registry, id) =>
    case Order(registry, id, generation, retry) =>
    case Clear(older) =>
    case Wait =>
  }

  ghost predicate Kept(r: Run, i: nat, j: nat, d: DestId) {
    i <= j < |r.states| && forall k :: i <= k <= j ==> d in r.states[k].destinations
  }

  lemma {:induction false} NeverBack(r: Run, i: nat, j: nat, d: DestId)
    requires Behaves(r) && Kept(r, i, j, d)
    ensures r.states[j].destinations[d].nextAt >= r.states[i].destinations[d].nextAt
  {
    if i < j {
      NeverBack(r, i, j - 1, d);
      assert Step(r.states[j - 1], r.events[j - 1], r.times[j - 1], r.states[j - 1 + 1]);
      StepNeverBack(r.states[j - 1], r.events[j - 1], r.times[j - 1], r.states[j], d);
    }
  }

  ghost predicate ClaimedAt(r: Run, k: nat, d: DestId) {
    k < |r.events| && r.events[k].Claim? && r.events[k].claimed.Some? && r.events[k].claimed.value.row.destination == d
  }

  lemma ClaimWaits(r: Run, k: nat, d: DestId)
    requires Behaves(r) && ClaimedAt(r, k, d)
    ensures d in r.states[k].destinations && r.states[k].destinations[d].nextAt <= r.times[k]
    ensures d in r.states[k + 1].destinations
    ensures r.states[k + 1].destinations[d].nextAt == r.times[k] + r.events[k].claimed.value.row.policy.spacing
  {
    var db, db', e, at := r.states[k], r.states[k + 1], r.events[k], r.times[k];
    assert Step(r.states[k], r.events[k], r.times[k], r.states[k + 1]);
    var skipped :| Takes(db, db', e.registry, e.only, at, e.token, e.claimed.value, skipped);
    assert Ready(db, at, DestOf(db, e.claimed.value.id));
  }

  /** While a destination's row stays, two claims of it are at least the first one's spacing apart. */
  lemma ClaimsAreSpaced(r: Run, i: nat, j: nat, d: DestId)
    requires Behaves(r) && i < j && ClaimedAt(r, i, d) && ClaimedAt(r, j, d) && Kept(r, i, j, d)
    ensures r.times[j] >= r.times[i] + r.events[i].claimed.value.row.policy.spacing
  {
    ClaimWaits(r, i, d);
    ClaimWaits(r, j, d);
    assert Kept(r, i + 1, j, d);
    NeverBack(r, i + 1, j, d);
  }

  /** And none of them comes before a cooldown its receiver asked for. */
  lemma CooldownHolds(r: Run, i: nat, j: nat, d: DestId)
    requires Behaves(r) && i < j && ClaimedAt(r, j, d) && Kept(r, i, j, d) && i < |r.events|
    requires r.events[i].Answered? && r.events[i].claim.row.destination == d
    requires Fenced(r.states[i], r.events[i].claim, r.times[i])
    requires r.events[i].answer.Nack? && r.events[i].answer.cooldown && r.events[i].answer.due.Some?
    ensures r.times[j] >= r.events[i].answer.due.value
  {
    assert Step(r.states[i], r.events[i], r.times[i], r.states[i + 1]);
    assert r.states[i + 1].destinations[d].nextAt >= r.events[i].answer.due.value;
    ClaimWaits(r, j, d);
    assert Kept(r, i + 1, j, d);
    NeverBack(r, i + 1, j, d);
  }

  // ----------------------------------------------------------- routes

  /** Finishing a terminal run consumes its routes, and delivers exactly those that asked for its status. */
  lemma FinishDelivers(db: Db, db': Db, run: RunId, ids: map<DestId, Id>, at: int, d: DestId)
    requires Inv(db) && Finishes(db, db', run, ids, at) && run in db.runs && db.runs[run].Terminal()
    requires (run, d) in db.routes
    ensures (run, d) !in db'.routes
    ensures HasDelivery(db', run, d) <==> db.runs[run] in db.routes[(run, d)].statuses
  {
    FinishAdds(db, db', run, ids, at);
    OwesAt(db, run, d);
    if OwedAt(db, run, d) {
      assert ids[d] in ids.Values;
      assert db'.deliveries[ids[d]] == FreshRow(db, run, d, at);
    }
    if id :| id in db'.deliveries && db'.deliveries[id].data.run == run && db'.deliveries[id].data.destination == d {
      if id !in db.deliveries {
        var e := AddedRow(db, db', run, ids, at, id);
      }
    }
  }

  /** Finishing it again changes nothing, however often. */
  lemma FinishIsIdempotent(db: Db, db': Db, db'': Db, run: RunId, ids: map<DestId, Id>, again: map<DestId, Id>, at: int,
                           later: int)
    requires Finishes(db, db', run, ids, at) && run in db.runs && db.runs[run].Terminal()
    requires Finishes(db', db'', run, again, later)
    ensures db'' == db'.(clock := later)
  {
  }

  ghost predicate Creates(db: Db, db': Db, run: RunId, d: DestId) {
    exists id :: id in db'.deliveries && id !in db.deliveries
                 && db'.deliveries[id].data.run == run && db'.deliveries[id].data.destination == d
  }

  lemma FinishUsesRoute(db: Db, db': Db, run: RunId, ids: map<DestId, Id>, at: int, of: RunId, d: DestId)
    requires Finishes(db, db', run, ids, at) && Creates(db, db', of, d)
    ensures of == run && run in db.runs && (run, d) in db.routes && (run, d) !in db'.routes && db'.runs == db.runs
  {
    var id :| id in db'.deliveries && id !in db.deliveries
           && db'.deliveries[id].data.run == of && db'.deliveries[id].data.destination == d;
    FinishAdds(db, db', run, ids, at);
    var e := AddedRow(db, db', run, ids, at, id);
  }

  lemma OnlyFinishingCreates(db: Db, e: Event, at: int, db': Db)
    requires Step(db, e, at, db') && !e.Move? && !e.Sweep?
    ensures forall id :: id in db'.deliveries ==> id in db.deliveries
  {
    if e.Claim? && e.claimed.Some? {
      var skipped :| Takes(db, db', e.registry, e.only, at, e.token, e.claimed.value, skipped);
    }
  }

  /** A delivery is only ever made out of its route, which goes with it. */
  lemma CreationUsesRoute(db: Db, e: Event, at: int, db': Db, run: RunId, d: DestId)
    requires Step(db, e, at, db') && Creates(db, db', run, d)
    ensures (run, d) in db.routes && run in db'.runs && (run, d) !in db'.routes
  {
    if e.Move? {
      FinishUsesRoute(db.(runs := db.runs[e.run := e.status]), db', e.run, e.ids, at, run, d);
    } else if e.Sweep? {
      FinishUsesRoute(db, db', e.run, e.ids, at, run, d);
    } else {
      OnlyFinishingCreates(db, e, at, db');
    }
  }

  lemma StepKeepsUnrouted(db: Db, e: Event, at: int, db': Db, run: RunId, d: DestId)
    requires Step(db, e, at, db') && run in db.runs && (run, d) !in db.routes
    ensures run in db'.runs && (run, d) !in db'.routes
  {
    match e
    case Claim(registry, only, token, claimed) =>
      if claimed.Some? {
        var skipped :| Takes(db, db', registry, only, at, token, claimed.value, skipped);
      }
    case Queue(of, routes) =>
    case Move(of, status, ids) =>
    case Sweep(of, ids) =>
    case Answered(claim, answer) =>
    case Visit(registry, id) =>
    case Order(registry, id, generation, retry) =>
    case Clear(older) =>
    case Wait =>
  }

  lemma {:induction false} UnroutedThroughout(r: Run, i: nat, j: nat, run: RunId, d: DestId)
    requires Behaves(r) && i <= j < |r.states| && run in r.states[i].runs && (run, d) !in r.states[i].routes
    ensures run in r.states[j].runs && (run, d) !in r.states[j].routes
  {
    if i < j {
      UnroutedThroughout(r, i, j - 1, run, d);
      assert Step(r.states[j - 1], r.events[j - 1], r.times[j - 1], r.states[j - 1 + 1]);
      StepKeepsUnrouted(r.states[j - 1], r.events[j - 1], r.times[j - 1], r.states[j], run, d);
    }
  }

  /** Over a whole run, pruning included, a run is announced to a destination at most once. */
  lemma DeliveredOnce(r: Run, i: nat, j: nat, run: RunId, d: DestId)
    requires Behaves(r) && i < j < |r.events| && Creates(r.states[i], r.states[i + 1], run, d)
    ensures !Creates(r.states[j], r.states[j + 1], run, d)
  {
    assert Step(r.states[i], r.events[i], r.times[i], r.states[i + 1]);
    CreationUsesRoute(r.states[i], r.events[i], r.times[i], r.states[i + 1], run, d);
    UnroutedThroughout(r, i + 1, j, run, d);
    if Creates(r.states[j], r.states[j + 1], run, d) {
      assert Step(r.states[j], r.events[j], r.times[j], r.states[j + 1]);
      CreationUsesRoute(r.states[j], r.events[j], r.times[j], r.states[j + 1], run, d);
    }
  }

  // ----------------------------------------------------------- work conservation

  lemma {:induction false} Soonest(db: Db, ids: set<Id>) returns (id: Id)
    requires ids != {} && forall o :: o in ids ==> o in db.deliveries && db.deliveries[o].due.Some?
    ensures id in ids && forall o :: o in ids ==> Sooner(db, id, o)
    decreases ids
  {
    id :| id in ids;
    if ids != {id} {
      var rest := Soonest(db, ids - {id});
      var best := if Sooner(db, rest, id) then rest else id;
      forall o | o in ids ensures Sooner(db, best, o) {
        if o != id {
          assert o in ids - {id} && Sooner(db, rest, o);
        }
      }
      id := best;
    }
  }

  /** A destination with anything due has a head. */
  lemma HeadExists(db: Db, run: Option<RunId>, at: int, due: Id) returns (id: Id)
    requires IsDue(db, run, at, due)
    ensures Head(db, run, at, id) && DestOf(db, id) == DestOf(db, due) && Sooner(db, id, due)
  {
    var ids := set o | o in db.deliveries && IsDue(db, run, at, o) && DestOf(db, o) == DestOf(db, due);
    assert due in ids;
    id := Soonest(db, ids);
    forall o | IsDue(db, run, at, o) && DestOf(db, o) == DestOf(db, id) ensures Sooner(db, id, o) {
      assert o in ids;
    }
  }

  /** What reconciling leaves: every row still waiting can be sent. */
  ghost predicate Qualified(db: Db, registry: Registry) {
    forall id :: id in db.deliveries && db.deliveries[id].state.Pending? ==>
      Compatible(registry, DestOf(db, id), db.deliveries[id].data.protocol)
  }

  ghost predicate Sendable(db: Db, run: Option<RunId>, at: int, id: Id) {
    IsDue(db, run, at, id) && Ready(db, at, DestOf(db, id))
  }

  ghost predicate SoonestSendable(db: Db, run: Option<RunId>, at: int, id: Id)
    requires Sendable(db, run, at, id)
  {
    forall o :: Sendable(db, run, at, o) ==> db.deliveries[id].due.value <= db.deliveries[o].due.value
  }

  lemma SendableHead(db: Db, registry: Registry, run: Option<RunId>, at: int, due: Id) returns (id: Id)
    requires Qualified(db, registry) && Sendable(db, run, at, due)
    ensures Claimable(db, registry, run, at, id) && db.deliveries[id].due.value <= db.deliveries[due].due.value
  {
    id := HeadExists(db, run, at, due);
  }

  /**
   * Claiming is work-conserving: once reconciled, a claim is made exactly when
   * something is due to a destination whose lease and spacing have passed, and
   * it takes what is due soonest among all of that.
   */
  lemma ClaimConserves(db: Db, db': Db, registry: Registry, run: Option<RunId>, at: int, token: Token,
                       claimed: Option<Claimed>)
    requires Qualified(db, registry) && Claims(db, db', registry, run, at, token, claimed)
    ensures claimed.Some? <==> exists id :: Sendable(db, run, at, id)
    ensures claimed.Some? ==> Sendable(db, run, at, claimed.value.id) && SoonestSendable(db, run, at, claimed.value.id)
    ensures claimed.None? ==> db' == db.(clock := at)
  {
    if o :| Sendable(db, run, at, o) {
      var id := SendableHead(db, registry, run, at, o);
    }
    if claimed.Some? {
      assert Sendable(db, run, at, claimed.value.id);
      forall o | Sendable(db, run, at, o)
        ensures db.deliveries[claimed.value.id].due.value <= db.deliveries[o].due.value
      {
        var id := SendableHead(db, registry, run, at, o);
      }
    }
  }

  /** Before that it need not be: a head its sink cannot take hides everything behind it. */
  lemma HeadHides(db: Db, registry: Registry, run: Option<RunId>, at: int, head: Id, behind: Id)
    requires Head(db, run, at, head) && !Compatible(registry, DestOf(db, head), db.deliveries[head].data.protocol)
    requires behind in db.deliveries && DestOf(db, behind) == DestOf(db, head)
    ensures !Claimable(db, registry, run, at, behind)
  {
  }

  /**
   * What reconciling says of one row: waiting only if it can be sent, blocked only
   * if not, in flight only on a running lease.
   */
  predicate Reckoned(registry: Registry, row: Row, at: int) {
    && (row.state.Pending? ==> Compatible(registry, row.data.destination, row.data.protocol))
    && (row.state.Blocked? ==> !Compatible(registry, row.data.destination, row.data.protocol))
    && (row.state.InFlight? ==> row.expires.Some? && row.expires.value > at)
  }

  lemma ReconciledReckons(registry: Registry, row: Row, at: int)
    requires RowOk(row) && !StillLeased(row, at)
    ensures Reckoned(registry, ReconciledRow(registry, row, at), at)
  {
    ReconciledRowOk(registry, row, at);
  }

  lemma VisitReckons(db: Db, registry: Registry, id: Id, at: int, db': Db)
    requires Inv(db) && Visits(db, registry, id, at, db') && id in db.deliveries
    ensures OthersSame(db, db', id) && Reckoned(registry, db'.deliveries[id], at)
  {
    assert RowOk(db.deliveries[id]);
    if !StillLeased(db.deliveries[id], at) {
      ReconciledReckons(registry, db.deliveries[id], at);
    }
  }

  // ----------------------------------------------------------- between a pass and a claim

  ghost predicate Waits(db: Db, id: Id) {
    id in db.deliveries && db.deliveries[id].state.Pending?
  }

  /** The step leaves a row waiting that was not, and that its sink cannot take. */
  ghost predicate Strands(db: Db, db': Db, registry: Registry, id: Id) {
    Waits(db', id) && !Waits(db, id) && !Compatible(registry, DestOf(db', id), db'.deliveries[id].data.protocol)
  }

  ghost predicate StrandsNoneIn(db: Db, db': Db, registry: Registry) {
    forall id :: !Strands(db, db', registry, id)
  }

  // What a row waiting before and after a step is bound for does not change.
  lemma StillBound(db: Db, e: Event, at: int, db': Db, id: Id)
    requires Inv(db) && Step(db, e, at, db') && Waits(db, id) && Waits(db', id)
    ensures DestOf(db', id) == DestOf(db, id) && db'.deliveries[id].data.protocol == db.deliveries[id].data.protocol
  {
    StepMoves(db, e, at, db', id);
  }

  /** A step keeps every waiting row sendable exactly when it strands none. */
  lemma QualifiedStepIff(db: Db, e: Event, at: int, db': Db, registry: Registry)
    requires Inv(db) && Step(db, e, at, db') && Qualified(db, registry)
    ensures Qualified(db', registry) <==> StrandsNoneIn(db, db', registry)
  {
    forall id | Waits(db', id) && Waits(db, id)
      ensures Compatible(registry, DestOf(db', id), db'.deliveries[id].data.protocol)
    {
      StillBound(db, e, at, db', id);
    }
    if Qualified(db', registry) {
      forall id ensures !Strands(db, db', registry, id) {
      }
    }
    if StrandsNoneIn(db, db', registry) {
      forall id | id in db'.deliveries && db'.deliveries[id].state.Pending?
        ensures Compatible(registry, DestOf(db', id), db'.deliveries[id].data.protocol)
      {
        assert !Strands(db, db', registry, id) && Waits(db', id);
      }
    }
  }

  /**
   * Which steps can leave a row waiting: a finishing run makes it, its answer is
   * to be tried again, a visit recovers or unblocks it, or an operator retries
   * it; the last two only to a sink their own registry has.
   */
  ghost predicate SetsWaiting(db: Db, e: Event, db': Db, id: Id) {
    match e
    case Move(_, _, _) => id !in db.deliveries
    case Sweep(_, _) => id !in db.deliveries
    case Answered(claim, answer) => claim.id == id && answer.Nack? && answer.retry
    case Visit(registry, visited) =>
      visited == id && id in db'.deliveries && Compatible(registry, DestOf(db', id), db'.deliveries[id].data.protocol)
    case Order(registry, ordered, _, retry) =>
      ordered == id && retry && id in db'.deliveries && Compatible(registry, DestOf(db', id),
                                                                   db'.deliveries[id].data.protocol)
    case _ => false
  }

  lemma ClaimSetsNone(db: Db, db': Db, registry: Registry, only: Option<RunId>, at: int, token: Token,
                      claimed: Option<Claimed>, id: Id)
    requires Claims(db, db', registry, only, at, token, claimed) && Waits(db', id)
    ensures Waits(db, id)
  {
    if claimed.Some? {
      var skipped :| Takes(db, db', registry, only, at, token, claimed.value, skipped);
    }
  }

  lemma AnswerSetsWaiting(db: Db, claim: Claimed, answer: Answer, at: int, db': Db, id: Id)
    requires Inv(db) && Answers(db, claim, answer, at, db') && Waits(db', id) && !Waits(db, id)
    ensures claim.id == id && answer.Nack? && answer.retry
  {
    if Fenced(db, claim, at) {
      FenceMeansUnchanged(db, claim, at);
      assert RowOk(db.deliveries[claim.id]);
      AnswerDecides(db.deliveries[claim.id], answer, at);
    }
  }

  lemma VisitSetsWaiting(db: Db, registry: Registry, visited: Id, at: int, db': Db, id: Id)
    requires Inv(db) && Visits(db, registry, visited, at, db') && Waits(db', id) && !Waits(db, id)
    ensures visited == id && Compatible(registry, DestOf(db', id), db'.deliveries[id].data.protocol)
  {
    if visited in db.deliveries {
      VisitReckons(db, registry, visited, at, db');
    }
  }

  lemma OrderSetsWaiting(db: Db, registry: Registry, ordered: Id, generation: nat, retry: bool, at: int, db': Db,
                         id: Id)
    requires Orders(db, registry, ordered, generation, retry, at, db') && Waits(db', id) && !Waits(db, id)
    ensures ordered == id && retry && Compatible(registry, DestOf(db', id), db'.deliveries[id].data.protocol)
  {
  }

  lemma FinishSetsWaiting(db: Db, db': Db, run: RunId, ids: map<DestId, Id>, at: int, id: Id)
    requires Finishes(db, db', run, ids, at) && Waits(db', id) && !Waits(db, id)
    ensures id !in db.deliveries
  {
  }

  lemma SetsWaitingOnly(db: Db, e: Event, at: int, db': Db, id: Id)
    requires Inv(db) && Step(db, e, at, db') && Waits(db', id) && !Waits(db, id)
    ensures SetsWaiting(db, e, db', id)
  {
    match e
    case Move(run, status, ids) => FinishSetsWaiting(db.(runs := db.runs[run := status]), db', run, ids, at, id);
    case Sweep(run, ids) => FinishSetsWaiting(db, db', run, ids, at, id);
    case Claim(registry, only, token, claimed) => ClaimSetsNone(db, db', registry, only, at, token, claimed, id);
    case Answered(claim, answer) => AnswerSetsWaiting(db, claim, answer, at, db', id);
    case Visit(registry, visited) => VisitSetsWaiting(db, registry, visited, at, db', id);
    case Order(registry, ordered, generation, retry) => OrderSetsWaiting(db, registry, ordered, generation, retry, at,
                                                                         db', id);
    case Queue(_, _) =>
    case Clear(_) =>
    case Wait =>
  }

  ghost predicate StrandsNone(r: Run, k: nat, registry: Registry)
    requires k + 1 < |r.states|
  {
    StrandsNoneIn(r.states[k], r.states[k + 1], registry)
  }

  lemma {:induction false} QualifiedTo(r: Run, i: nat, j: nat, registry: Registry)
    requires Behaves(r) && i <= j < |r.states| && Qualified(r.states[i], registry)
    requires forall k :: i <= k < j ==> StrandsNone(r, k, registry)
    ensures Qualified(r.states[j], registry)
  {
    if i < j {
      QualifiedTo(r, i, j - 1, registry);
      QualifiedOn(r, j - 1, registry);
      assert StrandsNone(r, j - 1, registry);
    }
  }

  lemma QualifiedOn(r: Run, k: nat, registry: Registry)
    requires Behaves(r) && k + 1 < |r.states| && Qualified(r.states[k], registry)
    ensures Qualified(r.states[k + 1], registry) <==> StrandsNone(r, k, registry)
  {
    InvThroughout(r, k);
    assert Step(r.states[k], r.events[k], r.times[k], r.states[k + 1]);
    QualifiedStepIff(r.states[k], r.events[k], r.times[k], r.states[k + 1], registry);
  }

  /**
   * Once a pass has left every waiting row sendable, they stay so to a later
   * moment exactly when no step in between strands one.
   */
  lemma QualifiedUntilIff(r: Run, i: nat, j: nat, registry: Registry)
    requires Behaves(r) && i <= j < |r.states| && Qualified(r.states[i], registry)
    ensures (forall k :: i <= k <= j ==> Qualified(r.states[k], registry)) <==>
            (forall k :: i <= k < j ==> StrandsNone(r, k, registry))
  {
    if forall k :: i <= k <= j ==> Qualified(r.states[k], registry) {
      forall k | i <= k < j ensures StrandsNone(r, k, registry) {
        assert Qualified(r.states[k], registry) && Qualified(r.states[k + 1], registry);
        QualifiedOn(r, k, registry);
      }
    }
    if forall k :: i <= k < j ==> StrandsNone(r, k, registry) {
      forall k | i <= k <= j ensures Qualified(r.states[k], registry) {
        QualifiedTo(r, i, k, registry);
      }
    }
  }

  /**
   * So a claim any number of steps after a pass, by whatever processes, is still
   * work-conserving as long as none of them stranded a row: it is made exactly
   * when something is due to a free destination, and takes what is due soonest.
   */
  lemma LaterClaimConserves(r: Run, i: nat, j: nat, registry: Registry)
    requires Behaves(r) && i <= j < |r.events| && Qualified(r.states[i], registry)
    requires forall k :: i <= k < j ==> StrandsNone(r, k, registry)
    requires r.events[j].Claim? && r.events[j].registry == registry
    ensures r.events[j].claimed.Some? <==> exists id :: Sendable(r.states[j], r.events[j].only, r.times[j], id)
    ensures r.events[j].claimed.Some? ==>
              && Sendable(r.states[j], r.events[j].only, r.times[j], r.events[j].claimed.value.id)
              && SoonestSendable(r.states[j], r.events[j].only, r.times[j], r.events[j].claimed.value.id)
  {
    QualifiedTo(r, i, j, registry);
    assert Step(r.states[j], r.events[j], r.times[j], r.states[j + 1]);
    var e := r.events[j];
    ClaimConserves(r.states[j], r.states[j + 1], registry, e.only, r.times[j], e.token, e.claimed);
  }

  // ----------------------------------------------------------- spacing forgotten

  function Spacing(protocol: string): Route {
    Route({Success}, Policy(1, 0, 100), protocol)
  }

  function Nothing(): Db {
    Db(map[], map[], map[], map[], map[], 0, map[])
  }

  // One delivery of a run, waiting, and its destination never claimed.
  function Standing(runs: map<RunId, RunStatus>, id: Id, run: RunId, d: DestId, protocol: string, at: int,
                    issued: map<Token, Claimed>): Db {
    Db(map[id := NewDelivery(run, d, Spacing(protocol), at)], map[], map[d := Dest(0, None, 0)], map[], runs, at,
       issued)
  }

  lemma QueuedRoute(db: Db, d: DestId, run: RunId, route: Route, at: int)
    requires db.routes == map[] && run !in db.runs && route.policy.attempts >= 1 && at >= db.clock
    ensures var queued := db.(runs := db.runs[run := Queued], routes := map[(run, d) := route], clock := at);
            Step(db, Queue(run, map[d := route]), at, queued)
  {
    assert d in map[d := route];
    assert WithRoutes(db.routes, run, map[d := route]) == map[(run, d) := route];
  }

  lemma OneOwed(moved: Db, d: DestId, run: RunId)
    requires run in moved.runs && moved.routes.Keys == {(run, d)} && moved.runs[run] in moved.routes[(run, d)].statuses
    ensures Owes(moved, run) == {d}
  {
    assert (run, d) in moved.routes;
    forall e ensures e in Owes(moved, run) <==> e == d {
      OwesAt(moved, run, e);
    }
  }

  // A run routed to a destination nobody remembers is due as soon as it finishes.
  lemma FinishedOnly(db: Db, d: DestId, run: RunId, id: Id, protocol: string, at: int)
    requires db.deliveries == map[] && db.attempts == map[] && db.destinations == map[]
    requires db.routes == map[(run, d) := Spacing(protocol)] && run in db.runs && !db.runs[run].Terminal()
    requires at >= db.clock
    ensures Step(db, Move(run, Success, map[d := id]), at,
                 Standing(db.runs[run := Success], id, run, d, protocol, at, db.issued))
  {
    var moved := db.(runs := db.runs[run := Success]);
    OneOwed(moved, d, run);
    assert (run, d) in moved.routes;
    var ids := map[d := id];
    assert ids[d] in ids.Values;
    assert ids.Values == {id};
    assert Finishes(moved, Standing(moved.runs, id, run, d, protocol, at, db.issued), run, ids, at);
  }

  function Sender(d: DestId, protocol: string): Registry {
    [Sink(d, true, protocol, {}, {Success}, Policy(1, 0, 100))]
  }

  function Taking(run: RunId, d: DestId, protocol: string): Claimed {
    Claimed(0, TakenData(NewDelivery(run, d, Spacing(protocol), 0).data), 0)
  }

  // Claimed at 0: the destination is spaced until 100.
  function Sending(run: RunId, d: DestId, protocol: string): Db {
    Db(map[0 := TakenRow(NewDelivery(run, d, Spacing(protocol), 0), 0, 0)],
       map[(0, 1) := Attempt(1, 0, None, Open, None)],
       map[d := Dest(100, Some(0), 30000)], map[], map[run := Success], 0, map[0 := Taking(run, d, protocol)])
  }

  lemma ClaimedOnly(run: RunId, d: DestId, protocol: string)
    ensures Step(Standing(map[run := Success], 0, run, d, protocol, 0, map[]),
                 Claim(Sender(d, protocol), None, 0, Some(Taking(run, d, protocol))), 0,
                 Sending(run, d, protocol))
  {
    var db := Standing(map[run := Success], 0, run, d, protocol, 0, map[]);
    var registry := Sender(d, protocol);
    assert Serves(registry[0], d, protocol);
    assert Claimable(db, registry, None, 0, 0);
    assert TakenDests(db.destinations, {}, db.deliveries[0].data, 0, 0) == map[d := Dest(100, Some(0), 30000)];
    assert Takes(db, Sending(run, d, protocol), registry, None, 0, 0, Taking(run, d, protocol), {});
  }

  // Delivered at 1, and its destination still spaced until 100.
  function Spaced(run: RunId, d: DestId, protocol: string): Db {
    var data := NewDelivery(run, d, Spacing(protocol), 0).data.(state := Delivered, attempts := 1, cycleAttempts := 1,
                                                                generation := 2,
                                                                 nextAttempt := None, deliveredAt := Some(1));
    Db(map[0 := Row(data, Delivered, None, None, None, Some(1))], map[(0, 1) := Attempt(1, 0, Some(1), Accepted, None)],
       map[d := Dest(100, None, 0)], map[], map[run := Success], 1, map[0 := Taking(run, d, protocol)])
  }

  lemma AnsweredOnly(run: RunId, d: DestId, protocol: string)
    ensures Step(Sending(run, d, protocol), Answered(Taking(run, d, protocol), Ack), 1, Spaced(run, d, protocol))
  {
    var db, claim := Sending(run, d, protocol), Taking(run, d, protocol);
    assert Fenced(db, claim, 1);
    assert Settle(db, claim, Ack, 1).deliveries == Spaced(run, d, protocol).deliveries;
    assert Settle(db, claim, Ack, 1).attempts == Spaced(run, d, protocol).attempts;
    assert Settle(db, claim, Ack, 1).destinations == Spaced(run, d, protocol).destinations;
  }

  function Forgotten(run: RunId, d: DestId, protocol: string): Db {
    Db(map[], map[], map[], map[], map[run := Success], 2, map[0 := Taking(run, d, protocol)])
  }

  lemma PrunedOnly(run: RunId, d: DestId, protocol: string)
    ensures Step(Spaced(run, d, protocol), Clear(2), 2, Forgotten(run, d, protocol))
  {
    var pruned := Prune(Spaced(run, d, protocol), 2, 2);
    assert pruned.deliveries == map[] && pruned.attempts == map[] && pruned.destinations == map[];
  }

  // A run so far, one event at a time.
  lemma Then(r: Run, e: Event, at: int, db: Db) returns (longer: Run)
    requires Behaves(r) && Step(r.states[|r.events|], e, at, db)
    ensures Behaves(longer) && longer.states[|longer.events|] == db
    ensures |longer.states| == |r.states| + 1 && forall i :: 0 <= i < |r.states| ==> longer.states[i] == r.states[i]
  {
    longer := Run(r.states + [db], r.events + [e], r.times + [at]);
    forall k | 0 <= k < |longer.events|
      ensures Step(longer.states[k], longer.events[k], longer.times[k], longer.states[k + 1])
    {
      if k < |r.events| {
        assert Step(r.states[k], r.events[k], r.times[k], r.states[k + 1]);
      }
    }
  }

  // From the empty tables: a run queued, finished, and its one delivery made and spaced.
  lemma DeliveredRun(run: RunId, d: DestId, protocol: string) returns (r: Run)
    ensures Behaves(r) && r.states[|r.events|] == Spaced(run, d, protocol)
  {
    r := Run([Nothing()], [], []);
    QueuedRoute(Nothing(), d, run, Spacing(protocol), 0);
    var queued := Nothing().(runs := map[run := Queued], routes := map[(run, d) := Spacing(protocol)]);
    r := Then(r, Queue(run, map[d := Spacing(protocol)]), 0, queued);
    FinishedOnly(queued, d, run, 0, protocol, 0);
    assert map[run := Queued][run := Success] == map[run := Success];
    r := Then(r, Move(run, Success, map[d := 0]), 0, Standing(map[run := Success], 0, run, d, protocol, 0, map[]));
    ClaimedOnly(run, d, protocol);
    r := Then(r, Claim(Sender(d, protocol), None, 0, Some(Taking(run, d, protocol))), 0, Sending(run, d, protocol));
    AnsweredOnly(run, d, protocol);
    r := Then(r, Answered(Taking(run, d, protocol), Ack), 1, Spaced(run, d, protocol));
  }

  /**
   * Pruning can forget a destination's spacing. In a run from the empty tables a
   * destination claimed at 0 is spaced until 100; its one delivery is settled at
   * 1 and pruned at 2, its own row goes too, and the next run to name it has a
   * delivery that may be sent at 5.
   */
  lemma SpacingForgotten(d: DestId, run: RunId, next: RunId, protocol: string) returns (r: Run, k: nat)
    requires run != next
    ensures Behaves(r) && k < |r.states| && r.states[k].clock == 1
    ensures d in r.states[k].destinations && r.states[k].destinations[d].nextAt == 100
    ensures r.states[|r.events|].clock == 4 && Sendable(r.states[|r.events|], None, 5, 1)
    ensures 1 in r.states[|r.events|].deliveries && DestOf(r.states[|r.events|], 1) == d
  {
    var first := DeliveredRun(run, d, protocol);
    k := |first.events|;
    r := ForgottenRun(d, run, next, protocol, first);
  }

  // The delivery is pruned, its destination forgotten, and the next run's is due as soon as it finishes.
  lemma ForgottenRun(d: DestId, run: RunId, next: RunId, protocol: string, first: Run) returns (r: Run)
    requires run != next && Behaves(first) && first.states[|first.events|] == Spaced(run, d, protocol)
    ensures Behaves(r) && |r.states| > |first.states|
    ensures forall i :: 0 <= i < |first.states| ==> r.states[i] == first.states[i]
    ensures r.states[|r.events|].clock == 4 && Sendable(r.states[|r.events|], None, 5, 1)
    ensures 1 in r.states[|r.events|].deliveries && DestOf(r.states[|r.events|], 1) == d
  {
    PrunedOnly(run, d, protocol);
    r := Then(first, Clear(2), 2, Forgotten(run, d, protocol));
    r := RequeuedRun(d, run, next, protocol, r);
    r := RefinishedRun(d, run, next, protocol, r);
  }

  function Requeued(d: DestId, run: RunId, next: RunId, protocol: string): Db {
    Forgotten(run, d, protocol).(runs := map[run := Success, next := Queued],
                                 routes := map[(next, d) := Spacing(protocol)], clock := 3)
  }

  lemma RequeuedRun(d: DestId, run: RunId, next: RunId, protocol: string, first: Run) returns (r: Run)
    requires run != next && Behaves(first) && first.states[|first.events|] == Forgotten(run, d, protocol)
    ensures Behaves(r) && r.states[|r.events|] == Requeued(d, run, next, protocol)
    ensures |r.states| > |first.states| && forall i :: 0 <= i < |first.states| ==> r.states[i] == first.states[i]
  {
    QueuedRoute(Forgotten(run, d, protocol), d, next, Spacing(protocol), 3);
    assert map[run := Success][next := Queued] == map[run := Success, next := Queued];
    r := Then(first, Queue(next, map[d := Spacing(protocol)]), 3, Requeued(d, run, next, protocol));
  }

  lemma RefinishedRun(d: DestId, run: RunId, next: RunId, protocol: string, first: Run) returns (r: Run)
    requires run != next && Behaves(first) && first.states[|first.events|] == Requeued(d, run, next, protocol)
    ensures Behaves(r) && |r.states| > |first.states|
    ensures forall i :: 0 <= i < |first.states| ==> r.states[i] == first.states[i]
    ensures r.states[|r.events|].clock == 4 && Sendable(r.states[|r.events|], None, 5, 1)
    ensures 1 in r.states[|r.events|].deliveries && DestOf(r.states[|r.events|], 1) == d
  {
    var queued := Requeued(d, run, next, protocol);
    FinishedOnly(queued, d, next, 1, protocol, 4);
    StandingSendable(queued.runs[next := Success], next, d, protocol, queued.issued);
    r := Then(first, Move(next, Success, map[d := 1]), 4,
              Standing(queued.runs[next := Success], 1, next, d, protocol, 4, queued.issued));
  }

  lemma StandingSendable(runs: map<RunId, RunStatus>, next: RunId, d: DestId, protocol: string,
                         issued: map<Token, Claimed>)
    ensures var db := Standing(runs, 1, next, d, protocol, 4, issued);
            db.clock == 4 && Sendable(db, None, 5, 1) && 1 in db.deliveries && DestOf(db, 1) == d
  {
  }
}
