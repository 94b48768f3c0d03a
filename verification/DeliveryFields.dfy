/**
 * Deliveries column by column (src/delivery_store.rs): what each transaction
 * writes of every table, said over the fields and nothing else.
 */
module DeliveryFields {
  import opened Prelude
  import opened Deliveries
  import opened DeliveryInvariant
  import opened DeliveryRuns

  /** A sink takes a destination's deliveries when it is there under that id, enabled, and speaks their protocol. */
  lemma CompatibleSays(registry: Registry, d: DestId, protocol: string)
    ensures Compatible(registry, d, protocol) <==>
            exists s :: s in registry && s.id == d && s.enabled && s.protocol == protocol
  {
  }

  /** A destination is routed a job by a sink that names the job, or names none. */
  lemma RoutedSays(registry: Registry, job: string, d: DestId)
    ensures Routed(registry, job, d) <==> exists s :: s in registry && s.id == d && (s.jobs == {} || job in s.jobs)
  {
  }

  // Every table but these as it was; the two that any transaction may leave alone are named by their users.
  ghost predicate SameBut(db: Db, db': Db, at: int) {
    db'.runs == db.runs && db'.routes == db.routes && db'.clock == at
  }

  // ----------------------------------------------------------- queueing and finishing

  /** A run queued: its status, and one route for each destination chosen, as chosen. */
  lemma QueueSays(db: Db, run: RunId, routes: map<DestId, Route>, at: int)
    ensures var db' := QueueRun(db, run, routes, at);
            && (forall r :: r in db'.runs <==> r in db.runs || r == run) && db'.runs[run] == RunStatus.Queued
            && (forall r :: r in db.runs && r != run ==> db'.runs[r] == db.runs[r])
            && (forall key :: key in db'.routes <==> key in db.routes || (key.0 == run && key.1 in routes))
            && (forall key :: key in db'.routes ==>
                  db'.routes[key] == if key.0 == run && key.1 in routes then routes[key.1] else db.routes[key])
            && db'.deliveries == db.deliveries && db'.attempts == db.attempts && db'.destinations == db.destinations
            && db'.issued == db.issued && db'.clock == at
  {
  }

  /** A delivery as it is first written: pending and due now, with no attempt made. */
  ghost predicate New(row: Row, run: RunId, d: DestId, route: Route, at: int) {
    && row.data.run == run && row.data.destination == d && row.data.protocol == route.protocol
    && row.data.policy == route.policy && row.data.state.Pending? && row.data.attempts == 0
    && row.data.cycleAttempts == 0 && row.data.cycle == 1 && row.data.generation == 0
    && row.data.nextAttempt == Some(at) && row.data.deliveredAt.None? && row.data.lastError.None?
    && row.state.Pending? && row.due == Some(at) && row.claim.None? && row.expires.None? && row.settled.None?
  }

  // A delivery of this run that was not there before, for a route that asked for the run's status.
  ghost predicate Delivers(db: Db, db': Db, run: RunId, d: DestId, id: Id, at: int) {
    && id in db'.deliveries && id !in db.deliveries && run in db.runs
    && (run, d) in db.routes && db.runs[run] in db.routes[(run, d)].statuses
    && New(db'.deliveries[id], run, d, db.routes[(run, d)], at)
  }

  /**
   * A run that has ended: each of its routes goes, and exactly those that asked
   * for its status become deliveries; no other row is touched.
   */
  lemma FinishSays(db: Db, db': Db, run: RunId, ids: map<DestId, Id>, at: int)
    requires Finishes(db, db', run, ids, at) && run in db.runs
    requires db.runs[run].Success? || db.runs[run].Failure? || db.runs[run].Canceled?
    ensures forall key :: key in db'.routes <==> key in db.routes && key.0 != run
    ensures forall key :: key in db'.routes ==> db'.routes[key] == db.routes[key]
    ensures forall id :: id in db.deliveries ==> id in db'.deliveries && db'.deliveries[id] == db.deliveries[id]
    ensures forall d :: d in db.destinations ==> d in db'.destinations && db'.destinations[d] == db.destinations[d]
    ensures db'.attempts == db.attempts && db'.runs == db.runs && db'.issued == db.issued && db'.clock == at
  {
    if forall d :: (run, d) !in db.routes {
      forall key | key in db.routes ensures key.0 != run {
        assert (key.0, key.1) in db.routes;
      }
    }
  }

  /** No route becomes two. */
  lemma FinishDeliversOnce(db: Db, db': Db, run: RunId, ids: map<DestId, Id>, at: int, d: DestId, a: Id, b: Id)
    requires Finishes(db, db', run, ids, at) && run in db.runs
    requires db.runs[run].Success? || db.runs[run].Failure? || db.runs[run].Canceled?
    requires Delivers(db, db', run, d, a, at) && Delivers(db, db', run, d, b, at)
    ensures a == b
  {
    DeliveredFor(db, db', run, ids, at, d, a);
    DeliveredFor(db, db', run, ids, at, d, b);
  }

  lemma DeliveredFor(db: Db, db': Db, run: RunId, ids: map<DestId, Id>, at: int, d: DestId, id: Id)
    requires Finishes(db, db', run, ids, at) && run in db.runs
    requires db.runs[run].Success? || db.runs[run].Failure? || db.runs[run].Canceled?
    requires Delivers(db, db', run, d, id, at)
    ensures d in ids && id == ids[d]
  {
    var e :| e in ids && ids[e] == id;
    OwesAt(db, run, e);
    assert db'.deliveries[ids[e]] == FreshRow(db, run, e, at);
  }

  /** Exactly the routes that asked for the run's status become deliveries. */
  lemma FinishDeliversSays(db: Db, db': Db, run: RunId, ids: map<DestId, Id>, at: int)
    requires Finishes(db, db', run, ids, at) && run in db.runs
    requires db.runs[run].Success? || db.runs[run].Failure? || db.runs[run].Canceled?
    ensures forall d :: (run, d) in db.routes && db.runs[run] in db.routes[(run, d)].statuses ==>
              exists id :: Delivers(db, db', run, d, id, at)
    ensures forall id :: id in db'.deliveries && id !in db.deliveries ==>
              exists d :: Delivers(db, db', run, d, id, at)
  {
    forall d | (run, d) in db.routes && db.runs[run] in db.routes[(run, d)].statuses
      ensures exists id :: Delivers(db, db', run, d, id, at)
    {
      OwesAt(db, run, d);
      assert ids[d] in ids.Values;
      assert Delivers(db, db', run, d, ids[d], at);
    }
    forall id | id in db'.deliveries && id !in db.deliveries ensures exists d :: Delivers(db, db', run, d, id, at) {
      var d :| d in ids && ids[d] == id;
      OwesAt(db, run, d);
      assert Delivers(db, db', run, d, id, at);
    }
  }

  /** A destination a finished run names for the first time starts unclaimed, with nothing to wait for. */
  lemma FinishEnlists(db: Db, db': Db, run: RunId, ids: map<DestId, Id>, at: int)
    requires Finishes(db, db', run, ids, at) && run in db.runs
    requires db.runs[run].Success? || db.runs[run].Failure? || db.runs[run].Canceled?
    ensures forall d :: d in db'.destinations && d !in db.destinations ==>
              db'.destinations[d] == Dest(0, None, 0) && exists id :: Delivers(db, db', run, d, id, at)
    ensures forall d :: (run, d) in db.routes && db.runs[run] in db.routes[(run, d)].statuses ==> d in db'.destinations
  {
    FinishDeliversSays(db, db', run, ids, at);
    forall d | d in db'.destinations && d !in db.destinations
      ensures (run, d) in db.routes && db.runs[run] in db.routes[(run, d)].statuses
    {
      OwesAt(db, run, d);
    }
    forall d | (run, d) in db.routes && db.runs[run] in db.routes[(run, d)].statuses ensures d in db'.destinations {
      OwesAt(db, run, d);
    }
  }

  /** A run that has not ended delivers nothing and keeps its routes. */
  lemma UnfinishedSays(db: Db, db': Db, run: RunId, ids: map<DestId, Id>, at: int)
    requires Finishes(db, db', run, ids, at)
    requires run !in db.runs || db.runs[run].Queued? || db.runs[run].Running?
    ensures db' == db.(clock := at)
  {
  }

  // ----------------------------------------------------------- claiming

  // Pending, due by now, and of the run asked for.
  ghost predicate Due(db: Db, run: Option<RunId>, at: int, id: Id) {
    && id in db.deliveries && db.deliveries[id].state.Pending?
    && db.deliveries[id].due.Some? && db.deliveries[id].due.value <= at
    && (run.None? || db.deliveries[id].data.run == run.value)
  }

  // Due no later than another, and of two due together the older.
  ghost predicate NoLater(db: Db, a: Id, b: Id)
    requires a in db.deliveries && b in db.deliveries
  {
    && db.deliveries[a].due.Some? && db.deliveries[b].due.Some?
    && (db.deliveries[a].due.value < db.deliveries[b].due.value
        || (db.deliveries[a].due.value == db.deliveries[b].due.value && a <= b))
  }

  /** What can be claimed: the first due of a destination that is free and not held off, with a sink to take it. */
  ghost predicate Offered(db: Db, registry: Registry, run: Option<RunId>, at: int, id: Id) {
    && Due(db, run, at, id)
    && var data := db.deliveries[id].data;
       && (forall o :: Due(db, run, at, o) && db.deliveries[o].data.destination == data.destination ==>
             NoLater(db, id, o))
       && data.destination in db.destinations && db.destinations[data.destination].expires <= at
       && db.destinations[data.destination].nextAt <= at
       && exists s :: s in registry && s.id == data.destination && s.enabled && s.protocol == data.protocol
  }

  lemma OfferedIff(db: Db, registry: Registry, run: Option<RunId>, at: int, id: Id)
    ensures Claimable(db, registry, run, at, id) <==> Offered(db, registry, run, at, id)
  {
    if id in db.deliveries {
      CompatibleSays(registry, db.deliveries[id].data.destination, db.deliveries[id].data.protocol);
    }
    forall o ensures IsDue(db, run, at, o) <==> Due(db, run, at, o) {
    }
    if Due(db, run, at, id) {
      forall o | Due(db, run, at, o) ensures Sooner(db, id, o) <==> NoLater(db, id, o) {
      }
    }
  }

  ghost function LaterOf(a: int, b: int): int {
    if a >= b then a else b
  }

  /** A claim's row and its attempt: in flight under the token, leased past the timeout, one attempt more. */
  ghost predicate TakenAs(was: Row, now: Row, at: int, token: Token) {
    && now.data == was.data.(state := InFlight, attempts := was.data.attempts + 1,
                             cycleAttempts := was.data.cycleAttempts + 1, generation := was.data.generation + 1,
                             nextAttempt := None)
    && now.state.InFlight? && now.due.None? && now.claim == Some(token) && now.settled == was.settled
    && now.expires == Some(at + LaterOf(was.data.policy.timeout, 10000) + 20000)
  }

  /** The destinations after a claim: its own leased and spaced, a reservation passed over let go, the rest alone. */
  ghost predicate ReservedAs(db: Db, db': Db, data: Delivery, at: int, token: Token) {
    && (forall d :: d in db'.destinations <==> d in db.destinations)
    && forall d :: d in db.destinations ==>
         if d == data.destination then
           db'.destinations[d] == Dest(at + data.policy.spacing, Some(token),
                                       at + LaterOf(data.policy.timeout, 10000) + 20000)
         else
           || db'.destinations[d] == db.destinations[d]
           || (db.destinations[d].expires <= at && db.destinations[d].nextAt <= at
               && db'.destinations[d] == Dest(db.destinations[d].nextAt, None, 0))
  }

  lemma ClaimSays(db: Db, db': Db, registry: Registry, run: Option<RunId>, at: int, token: Token, c: Claimed)
    requires Claims(db, db', registry, run, at, token, Some(c))
    ensures Offered(db, registry, run, at, c.id)
    ensures forall o :: Offered(db, registry, run, at, o) ==>
              db.deliveries[c.id].due.value <= db.deliveries[o].due.value
    ensures (forall id :: id in db'.deliveries <==> id in db.deliveries)
            && forall id :: id in db.deliveries && id != c.id ==> db'.deliveries[id] == db.deliveries[id]
    ensures TakenAs(db.deliveries[c.id], db'.deliveries[c.id], at, token)
    ensures c.token == token && c.row == db'.deliveries[c.id].data
    ensures var key := (c.id, db.deliveries[c.id].data.attempts + 1);
            db'.attempts == db.attempts[key := Attempt(db.deliveries[c.id].data.cycle, at, None, Open, None)]
    ensures ReservedAs(db, db', db.deliveries[c.id].data, at, token)
    ensures SameBut(db, db', at) && db'.issued == db.issued[token := c]
  {
    OfferedIff(db, registry, run, at, c.id);
    forall o ensures Claimable(db, registry, run, at, o) <==> Offered(db, registry, run, at, o) {
      OfferedIff(db, registry, run, at, o);
    }
    var skipped :| Takes(db, db', registry, run, at, token, c, skipped);
    TakeSays(db, c.id, skipped, at, token);
    forall d | d in skipped ensures Ready(db, at, d) {
      assert Skippable(db, registry, run, at, d);
    }
  }

  lemma TakeSays(db: Db, id: Id, skipped: set<DestId>, at: int, token: Token)
    requires id in db.deliveries
    ensures var db' := Take(db, id, skipped, at, token);
            && TakenAs(db.deliveries[id], db'.deliveries[id], at, token)
            && db'.attempts == db.attempts[(id, db.deliveries[id].data.attempts + 1) :=
                                             Attempt(db.deliveries[id].data.cycle, at, None, Open, None)]
  {
  }

  /** No claim is made exactly when nothing is offered, and then nothing is written. */
  lemma NoClaimSays(db: Db, db': Db, registry: Registry, run: Option<RunId>, at: int, token: Token)
    requires Claims(db, db', registry, run, at, token, None)
    ensures (forall id :: !Offered(db, registry, run, at, id)) && db' == db.(clock := at)
  {
    forall id ensures Claimable(db, registry, run, at, id) <==> Offered(db, registry, run, at, id) {
      OfferedIff(db, registry, run, at, id);
    }
  }

  // ----------------------------------------------------------- settling

  /** The fence: the row is still in flight under this token, its lease not run out. */
  ghost predicate StillHeld(db: Db, claim: Claimed, at: int) {
    && claim.id in db.deliveries && db.deliveries[claim.id].state.InFlight?
    && db.deliveries[claim.id].claim == Some(claim.token)
    && db.deliveries[claim.id].expires.Some? && at < db.deliveries[claim.id].expires.value
  }

  /** What an answer makes of the record the claim carried. */
  ghost predicate AnsweredAs(was: Delivery, now: Delivery, answer: Answer, at: int) {
    match answer
    case Ack =>
      now == was.(generation := was.generation + 1, state := Delivered, deliveredAt := Some(at), lastError := None)
    case Nack(retry, _, due, text) =>
      if retry && due.Some? && was.cycleAttempts < was.policy.attempts
      then now == was.(generation := was.generation + 1, state := Pending, nextAttempt := due,
                       lastError := Some(Refusal(text)))
      else now == was.(generation := was.generation + 1, state := Failed, nextAttempt := None,
                       lastError := Some(if retry && due.None? then OutOfRange else Refusal(text)))
  }

  ghost predicate AttemptAnsweredAs(was: Attempt, now: Attempt, answer: Answer, at: int) {
    match answer
    case Ack => now == was.(finishedAt := Some(at), outcome := Accepted)
    case Nack(retry, _, _, text) =>
      now == was.(finishedAt := Some(at), error := Some(Refusal(text)),
                  outcome := if retry then RetryableFailure else PermanentFailure)
  }

  /** The destination let go of, and held off until the time asked for where the answer asked it of them all. */
  ghost predicate LetGoAs(was: Dest, now: Dest, answer: Answer, token: Token) {
    && now.nextAt == (if answer.Nack? && answer.cooldown && answer.due.Some? then LaterOf(was.nextAt, answer.due.value)
                      else was.nextAt)
    && (if was.claim == Some(token) then now.claim.None? && now.expires == 0
        else now.claim == was.claim && now.expires == was.expires)
  }

  lemma SettleSays(db: Db, claim: Claimed, answer: Answer, at: int, db': Db)
    requires Answers(db, claim, answer, at, db')
    ensures !StillHeld(db, claim, at) ==> db' == db.(clock := at)
    ensures StillHeld(db, claim, at) ==>
              && (forall id :: id in db'.deliveries <==> id in db.deliveries)
              && (forall id :: id in db.deliveries && id != claim.id ==> db'.deliveries[id] == db.deliveries[id])
              && var was, now := db.deliveries[claim.id], db'.deliveries[claim.id];
                 && AnsweredAs(claim.row, now.data, answer, at) && now.state == now.data.state
                 && now.due == now.data.nextAttempt && now.claim.None? && now.expires.None?
                 && now.settled == (if answer.Ack? then Some(at) else was.settled)
    ensures StillHeld(db, claim, at) ==>
              var key := (claim.id, claim.row.attempts);
              && key in db.attempts && db'.attempts.Keys == db.attempts.Keys
              && AttemptAnsweredAs(db.attempts[key], db'.attempts[key], answer, at)
              && forall other :: other in db.attempts && other != key ==> db'.attempts[other] == db.attempts[other]
    ensures StillHeld(db, claim, at) ==>
              && db'.destinations.Keys == db.destinations.Keys
              && forall d :: d in db.destinations ==>
                   var was, now := db.destinations[d], db'.destinations[d];
                   if d == claim.row.destination then LetGoAs(was, now, answer, claim.token) else now == was
    ensures StillHeld(db, claim, at) ==> SameBut(db, db', at) && db'.issued == db.issued
  {
    assert Fenced(db, claim, at) <==> StillHeld(db, claim, at);
  }

  // ----------------------------------------------------------- reconciling one row

  predicate Left(data: Delivery) {
    data.cycleAttempts < data.policy.attempts
  }

  ghost predicate HasSink(registry: Registry, data: Delivery) {
    exists s :: s in registry && s.id == data.destination && s.enabled && s.protocol == data.protocol
  }

  // In flight with its lease not run out.
  ghost predicate Running(row: Row, at: int) {
    row.data.state.InFlight? && row.expires.Some? && at < row.expires.value
  }

  /**
   * What a visit makes of a row. A lapsed lease is failed when no attempts are
   * left, waits for now when its sink is there, and is blocked when it is not; a
   * pending row without its sink is blocked; one blocked for want of its sink
   * waits for now when it is back; everything else stays.
   */
  ghost predicate VisitedAs(registry: Registry, was: Row, now: Row, at: int) {
    var data := was.data;
    if Running(was, at) then now == was
    else if data.state.InFlight? then
      && now.claim.None? && now.expires.None? && now.settled == was.settled
      && now.state == now.data.state && now.due == now.data.nextAttempt
      && if !Left(data) then
           now.data == data.(state := Failed, lastError := Some(LeaseExpired), nextAttempt := None,
                             generation := data.generation + 1)
         else if HasSink(registry, data) then
           now.data == data.(state := Pending, lastError := Some(LeaseExpired), nextAttempt := Some(at),
                             generation := data.generation + 1)
         else
           now.data == data.(state := Blocked, lastError := Some(Incompatible), nextAttempt := Some(at),
                             generation := data.generation + 2)
    else if data.state.Pending? && !HasSink(registry, data) then
      now == was.(data := data.(state := Blocked, lastError := Some(Incompatible), generation := data.generation + 1),
                  state := Blocked, due := data.nextAttempt)
    else if data.state.Blocked? && HasSink(registry, data) && data.lastError == Some(Incompatible) then
      now == was.(data := data.(state := Pending, lastError := None, nextAttempt := Some(at),
                                generation := data.generation + 1),
                  state := Pending, due := Some(at))
    else now == was
  }

  lemma ReconciledRowSays(registry: Registry, row: Row, at: int)
    requires !Running(row, at)
    ensures VisitedAs(registry, row, ReconciledRow(registry, row, at), at)
  {
    CompatibleSays(registry, row.data.destination, row.data.protocol);
  }

  lemma VisitSays(db: Db, registry: Registry, id: Id, at: int, db': Db)
    requires Visits(db, registry, id, at, db')
    ensures id !in db.deliveries ==> db' == db.(clock := at)
    ensures id in db.deliveries ==>
              && (forall o :: o in db'.deliveries <==> o in db.deliveries)
              && (forall o :: o in db.deliveries && o != id ==> db'.deliveries[o] == db.deliveries[o])
              && VisitedAs(registry, db.deliveries[id], db'.deliveries[id], at)
    ensures SameBut(db, db', at) && db'.issued == db.issued
  {
    if id in db.deliveries && !Running(db.deliveries[id], at) {
      ReconciledRowSays(registry, db.deliveries[id], at);
    }
  }

  /** The attempt a lapsed lease left open is closed as unknown; no other is touched. */
  lemma VisitedAttemptsSay(db: Db, registry: Registry, id: Id, at: int, db': Db)
    requires Visits(db, registry, id, at, db')
    ensures id in db.deliveries && db.deliveries[id].data.state.InFlight? && !Running(db.deliveries[id], at) ==>
              var key := (id, db.deliveries[id].data.attempts);
              && key in db.attempts
              && db'.attempts == db.attempts[key := db.attempts[key].(finishedAt := Some(at), outcome := Unknown,
                                                                      error := Some(LeaseExpired))]
    ensures id in db.deliveries && (!db.deliveries[id].data.state.InFlight? || Running(db.deliveries[id], at)) ==>
              db'.attempts == db.attempts
    ensures id !in db.deliveries ==> db'.attempts == db.attempts
  {
  }

  lemma VisitedDestsSay(db: Db, registry: Registry, id: Id, at: int, db': Db)
    requires Visits(db, registry, id, at, db')
    ensures id in db.deliveries && Running(db.deliveries[id], at) ==> db'.destinations == db.destinations
    ensures id in db.deliveries && !Running(db.deliveries[id], at) ==> DestsVisited(db, db', id)
    ensures id !in db.deliveries ==> db'.destinations == db.destinations
  {
  }

  /** The visited row's destination is there, and free of the lease given up. */
  ghost predicate DestsVisited(db: Db, db': Db, id: Id)
    requires id in db.deliveries
  {
    var row := db.deliveries[id];
    var d := row.data.destination;
    && (forall o :: o in db'.destinations <==> o in db.destinations || o == d)
    && (forall o :: o in db.destinations && o != d ==> db'.destinations[o] == db.destinations[o])
    && var was := if d in db.destinations then db.destinations[d] else Dest(0, None, 0);
       db'.destinations[d] == if row.data.state.InFlight? && row.claim.Some? && was.claim == row.claim
                              then Dest(was.nextAt, None, 0) else was
  }

  // ----------------------------------------------------------- control

  /** Why a control is refused: unknown, moved on since it was looked at, or not in a state for it. */
  lemma JudgeSays(db: Db, registry: Registry, id: Id, generation: nat, retry: bool)
    ensures Judge(db, registry, id, generation, retry) == Some(UnknownDelivery) <==> id !in db.deliveries
    ensures id in db.deliveries ==>
              (Judge(db, registry, id, generation, retry) == Some(Changed) <==>
                 db.deliveries[id].data.generation != generation)
    ensures id in db.deliveries && db.deliveries[id].data.generation == generation && retry ==>
              (Judge(db, registry, id, generation, retry) ==
                 if db.deliveries[id].data.state.Failed? && HasSink(registry, db.deliveries[id].data) then None
                 else Some(NotRetryable))
    ensures id in db.deliveries && db.deliveries[id].data.generation == generation && !retry ==>
              (Judge(db, registry, id, generation, retry) ==
                 if db.deliveries[id].data.state.Failed? || db.deliveries[id].data.state.Pending?
                    || db.deliveries[id].data.state.Blocked?
                 then None else Some(NotDismissable))
  {
    if id in db.deliveries {
      CompatibleSays(registry, db.deliveries[id].data.destination, db.deliveries[id].data.protocol);
    }
  }

  /** A retry waits for now in a new cycle with all its attempts; a dismissal is settled and due no more. */
  ghost predicate ControlledAs(was: Row, now: Row, retry: bool, at: int) {
    var data := was.data;
    if retry then
      now == was.(data := data.(state := Pending, cycle := data.cycle + 1, cycleAttempts := 0, nextAttempt := Some(at),
                                generation := data.generation + 1),
                  state := Pending, due := Some(at))
    else
      now == was.(data := data.(state := Dismissed, nextAttempt := None, generation := data.generation + 1),
                  state := Dismissed, due := None, settled := Some(at))
  }

  lemma ControlSays(db: Db, registry: Registry, id: Id, generation: nat, retry: bool, at: int, db': Db)
    requires Orders(db, registry, id, generation, retry, at, db')
    ensures Judge(db, registry, id, generation, retry).Some? ==> db' == db.(clock := at)
    ensures Judge(db, registry, id, generation, retry).None? ==>
              && id in db.deliveries && (forall o :: o in db'.deliveries <==> o in db.deliveries)
              && (forall o :: o in db.deliveries && o != id ==> db'.deliveries[o] == db.deliveries[o])
              && ControlledAs(db.deliveries[id], db'.deliveries[id], retry, at)
              && db'.attempts == db.attempts && db'.destinations == db.destinations && db'.issued == db.issued
              && SameBut(db, db', at)
  {
  }

  // ----------------------------------------------------------- pruning

  // Delivered or dismissed, and settled before the time.
  ghost predicate LongSettled(row: Row, older: int) {
    (row.state.Delivered? || row.state.Dismissed?) && row.settled.Some? && row.settled.value < older
  }

  /**
   * What pruning keeps, all of it unchanged: every row but those long settled,
   * every attempt but theirs, and every destination that is claimed or that a
   * row kept or a route names.
   */
  ghost predicate Pruned(db: Db, older: int, at: int, db': Db) {
    && (forall id :: id in db'.deliveries <==> id in db.deliveries && !LongSettled(db.deliveries[id], older))
    && (forall id :: id in db'.deliveries ==> db'.deliveries[id] == db.deliveries[id])
    && (forall key :: key in db'.attempts <==>
          key in db.attempts && (key.0 in db.deliveries ==> key.0 in db'.deliveries))
    && (forall key :: key in db'.attempts ==> db'.attempts[key] == db.attempts[key])
    && (forall d :: d in db'.destinations <==>
          && d in db.destinations
          && (|| db.destinations[d].claim.Some?
              || (exists id :: id in db'.deliveries && db'.deliveries[id].data.destination == d)
              || exists key :: key in db.routes && key.1 == d))
    && (forall d :: d in db'.destinations ==> db'.destinations[d] == db.destinations[d])
    && db'.issued == db.issued && SameBut(db, db', at)
  }

  lemma PruneSays(db: Db, older: int, at: int)
    ensures Pruned(db, older, at, Prune(db, older, at))
  {
  }

  // ----------------------------------------------------------- a whole pass

  /** What a visit at some time between these two makes of a row. */
  ghost predicate VisitedBetween(registry: Registry, was: Row, now: Row, from: int, to: int) {
    exists t :: from <= t <= to && VisitedAs(registry, was, now, t)
  }

  lemma VisitIsBetween(db: Db, registry: Registry, id: Id, at: int, db': Db)
    requires Visits(db, registry, id, at, db') && id in db.deliveries && at >= db.clock
    ensures id in db'.deliveries && db'.clock >= db.clock
    ensures VisitedBetween(registry, db.deliveries[id], db'.deliveries[id], db.clock, db'.clock)
  {
    VisitSays(db, registry, id, at, db');
    assert VisitedAs(registry, db.deliveries[id], db'.deliveries[id], at);
  }

  ghost predicate VisitStep(db: Db, registry: Registry, db': Db) {
    exists id, at :: Step(db, Visit(registry, id), at, db')
  }

  ghost predicate Chain(states: seq<Db>, registry: Registry) {
    forall k :: 0 <= k < |states| - 1 ==> VisitStep(states[k], registry, states[k + 1])
  }

  /** One state led to another by visits and nothing else. */
  ghost predicate Led(db: Db, registry: Registry, db': Db) {
    exists states :: Chain(states, registry) && states != [] && states[0] == db && states[|states| - 1] == db'
  }

  lemma LedNowhere(db: Db, registry: Registry)
    ensures Led(db, registry, db)
  {
    assert Chain([db], registry) && [db][0] == db;
  }

  lemma LedByOne(db: Db, registry: Registry, db': Db)
    requires VisitStep(db, registry, db')
    ensures Led(db, registry, db')
  {
    assert Chain([db, db'], registry) && [db, db'][0] == db && [db, db'][1] == db';
  }

  lemma LedThrough(db: Db, registry: Registry, mid: Db, db': Db)
    requires Led(db, registry, mid) && Led(mid, registry, db')
    ensures Led(db, registry, db')
  {
    var a :| Chain(a, registry) && a != [] && a[0] == db && a[|a| - 1] == mid;
    var b :| Chain(b, registry) && b != [] && b[0] == mid && b[|b| - 1] == db';
    var all := a + b[1..];
    forall k | 0 <= k < |all| - 1 ensures VisitStep(all[k], registry, all[k + 1]) {
      if k < |a| - 1 {
        assert VisitStep(a[k], registry, a[k + 1]);
      } else {
        assert VisitStep(b[k - (|a| - 1)], registry, b[k - (|a| - 1) + 1]);
      }
    }
    assert Chain(all, registry) && all[0] == db && all[|all| - 1] == db';
  }

  /** A row that waits for nothing is what a visit leaves. */
  lemma RestsAsVisited(registry: Registry, row: Row, from: int, to: int)
    requires from <= to
    requires !row.data.state.InFlight?
    requires row.data.state.Pending? ==> HasSink(registry, row.data)
    requires row.data.state.Blocked? ==> !HasSink(registry, row.data)
    ensures VisitedBetween(registry, row, row, from, to)
  {
    assert VisitedAs(registry, row, row, from);
  }

  /** A visit made later, or allowed for earlier, is a visit made in between. */
  lemma VisitedWithin(registry: Registry, was: Row, now: Row, from: int, to: int, from': int, to': int)
    requires VisitedBetween(registry, was, now, from, to) && from' <= from && to <= to'
    ensures VisitedBetween(registry, was, now, from', to')
  {
    var t :| from <= t <= to && VisitedAs(registry, was, now, t);
  }
}
