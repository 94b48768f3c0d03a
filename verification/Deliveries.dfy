/**
 * Durable notification deliveries (src/delivery_store.rs): the tables, each
 * transaction as a step from one state of them to the next, and the one
 * invariant every transaction keeps.
 */
module Deliveries {
  import opened Prelude

  // ids and tokens are time-ordered and never reused
  type Id = nat
  type Token = nat
  type DestId = string
  type RunId = string

  datatype RunStatus = Queued | Running | Success | Failure | Canceled
  {
    predicate Terminal() { Success? || Failure? || Canceled? }
  }

  datatype Policy = Policy(attempts: nat, timeout: nat, spacing: nat)

  datatype DeliveryState = Pending | InFlight | Blocked | Delivered | Failed | Dismissed

  datatype Fault = Incompatible | LeaseExpired | OutOfRange | Refusal(text: string)

  /** The record a row stores. */
  datatype Delivery = Delivery(
    run: RunId,
    destination: DestId,
    protocol: string,
    policy: Policy,
    state: DeliveryState,
    attempts: nat,
    cycleAttempts: nat,
    cycle: nat,
    generation: nat,
    nextAttempt: Option<int>,
    deliveredAt: Option<int>,
    lastError: Option<Fault>)

  /** A row: the record, the two columns that mirror it, and the lease on it. */
  datatype Row = Row(
    data: Delivery,
    state: DeliveryState,
    due: Option<int>,
    claim: Option<Token>,
    expires: Option<int>,
    settled: Option<int>)

  datatype Outcome = Open | Accepted | RetryableFailure | PermanentFailure | Unknown

  datatype Attempt = Attempt(cycle: nat, startedAt: int, finishedAt: Option<int>, outcome: Outcome,
                             error: Option<Fault>)

  /** A destination's lease and the earliest time it may be claimed again. */
  datatype Dest = Dest(nextAt: int, claim: Option<Token>, expires: int)

  datatype Route = Route(statuses: set<RunStatus>, policy: Policy, protocol: string)

  /** A configured destination; the registry holds each id once. */
  datatype Sink = Sink(id: DestId, enabled: bool, protocol: string, jobs: set<string>, statuses: set<RunStatus>,
                       policy: Policy)

  type Registry = seq<Sink>

  /** A claim handed out: the record as it was stored, and its fencing token. */
  datatype Claimed = Claimed(id: Id, row: Delivery, token: Token)

  /** The tables, the clock they are read by, and every claim handed out so far. */
  datatype Db = Db(
    deliveries: map<Id, Row>,
    attempts: map<(Id, nat), Attempt>,
    destinations: map<DestId, Dest>,
    routes: map<(RunId, DestId), Route>,
    runs: map<RunId, RunStatus>,
    clock: int,
    issued: map<Token, Claimed>)

  predicate Owed(s: DeliveryState) { s.Pending? || s.Blocked? }

  predicate Settled(s: DeliveryState) { s.Delivered? || s.Dismissed? }

  function Max(a: int, b: int): int { if a < b then b else a }

  // The record and the columns that mirror it, together.
  function Saved(row: Row, data: Delivery): Row {
    row.(data := data, state := data.state, due := data.nextAttempt)
  }

  function Released(row: Row): Row {
    row.(claim := None, expires := None)
  }

  function Enlisted(destinations: map<DestId, Dest>, d: DestId): map<DestId, Dest> {
    if d in destinations then destinations else destinations[d := Dest(0, None, 0)]
  }

  function Unclaimed(destinations: map<DestId, Dest>, d: DestId, token: Option<Token>): map<DestId, Dest> {
    if d in destinations && token.Some? && destinations[d].claim == token
    then destinations[d := destinations[d].(claim := None, expires := 0)]
    else destinations
  }

  predicate Serves(s: Sink, d: DestId, protocol: string) {
    s.id == d && s.enabled && s.protocol == protocol
  }

  predicate Compatible(registry: Registry, d: DestId, protocol: string) {
    exists i :: 0 <= i < |registry| && Serves(registry[i], d, protocol)
  }

  predicate UniqueSinks(registry: Registry) {
    forall i, j :: 0 <= i < j < |registry| ==> registry[i].id != registry[j].id
  }

  // ----------------------------------------------------------- runs and routes

  predicate Routed(registry: Registry, job: string, d: DestId) {
    exists i :: 0 <= i < |registry| && registry[i].id == d && (registry[i].jobs == {} || job in registry[i].jobs)
  }

  /** What a run queued with this registry will be delivered to, and on which statuses. */
  ghost predicate RoutesFor(registry: Registry, job: string, routes: map<DestId, Route>) {
    && (forall d :: d in routes <==> Routed(registry, job, d))
    && forall i :: 0 <= i < |registry| && registry[i].id in routes ==>
         routes[registry[i].id] == Route(registry[i].statuses, registry[i].policy, registry[i].protocol)
  }

  function WithRoutes(routes: map<(RunId, DestId), Route>, run: RunId,
                      added: map<DestId, Route>): map<(RunId, DestId), Route> {
    routes + map d | d in added :: (run, d) := added[d]
  }

  function QueueRun(db: Db, run: RunId, routes: map<DestId, Route>, at: int): Db {
    db.(runs := db.runs[run := Queued],
        routes := WithRoutes(db.routes, run, routes),
        clock := at)
  }

  predicate HasDelivery(db: Db, run: RunId, d: DestId) {
    exists id :: id in db.deliveries && db.deliveries[id].data.run == run && db.deliveries[id].data.destination == d
  }

  /** The destinations a finished run still owes a delivery. */
  function Owes(db: Db, run: RunId): set<DestId>
    requires run in db.runs
  {
    set key | key in db.routes && key.0 == run && db.runs[run] in db.routes[key].statuses :: key.1
  }

  function NewDelivery(run: RunId, d: DestId, route: Route, at: int): Row {
    Row(Delivery(run, d, route.protocol, route.policy, Pending, 0, 0, 1, 0, Some(at), None, None), Pending, Some(at),
        None, None, None)
  }

  function FreshRow(db: Db, run: RunId, d: DestId, at: int): Row
    requires (run, d) in db.routes
  {
    NewDelivery(run, d, db.routes[(run, d)], at)
  }

  predicate FreshIds(db: Db, owed: set<DestId>, ids: map<DestId, Id>) {
    && ids.Keys == owed
    && (forall d :: d in ids ==> ids[d] !in db.deliveries)
    && forall d, e :: d in ids && e in ids && ids[d] == ids[e] ==> d == e
  }

  // Routes of a terminal run become deliveries where its status was asked for, and are consumed.
  ghost predicate Finishes(db: Db, db': Db, run: RunId, ids: map<DestId, Id>, at: int) {
    if (forall d :: (run, d) !in db.routes) || run !in db.runs || !db.runs[run].Terminal()
    then db' == db.(clock := at)
    else
      && FreshIds(db, Owes(db, run), ids)
      && db'.deliveries.Keys == db.deliveries.Keys + ids.Values
      && (forall id :: id in db.deliveries ==> db'.deliveries[id] == db.deliveries[id])
      && (forall d :: d in ids ==> db'.deliveries[ids[d]] == FreshRow(db, run, d, at))
      && db'.destinations.Keys == db.destinations.Keys + ids.Keys
      && (forall d :: d in db.destinations ==> db'.destinations[d] == db.destinations[d])
      && (forall d :: d in ids && d !in db.destinations ==> db'.destinations[d] == Dest(0, None, 0))
      && (forall key :: key in db'.routes <==> key in db.routes && key.0 != run)
      && (forall key :: key in db'.routes ==> db'.routes[key] == db.routes[key])
      && db'.attempts == db.attempts && db'.runs == db.runs && db'.issued == db.issued && db'.clock == at
  }

  // ----------------------------------------------------------- claiming

  predicate IsDue(db: Db, run: Option<RunId>, at: int, id: Id) {
    && id in db.deliveries && db.deliveries[id].state.Pending?
    && db.deliveries[id].due.Some? && db.deliveries[id].due.value <= at
    && (run.Some? ==> db.deliveries[id].data.run == run.value)
  }

  function DestOf(db: Db, id: Id): DestId
    requires id in db.deliveries
  {
    db.deliveries[id].data.destination
  }

  predicate Sooner(db: Db, a: Id, b: Id)
    requires a in db.deliveries && b in db.deliveries && db.deliveries[a].due.Some? && db.deliveries[b].due.Some?
  {
    var x, y := db.deliveries[a].due.value, db.deliveries[b].due.value;
    x < y || (x == y && a <= b)
  }

  /** The row a destination's claim would take: due soonest, then oldest. */
  ghost predicate Head(db: Db, run: Option<RunId>, at: int, id: Id) {
    && IsDue(db, run, at, id)
    && forall o :: IsDue(db, run, at, o) && DestOf(db, o) == DestOf(db, id) ==> Sooner(db, id, o)
  }

  predicate Ready(db: Db, at: int, d: DestId) {
    d in db.destinations && db.destinations[d].expires <= at && db.destinations[d].nextAt <= at
  }

  predicate Enabled(registry: Registry, d: DestId) {
    exists i :: 0 <= i < |registry| && registry[i].id == d && registry[i].enabled
  }

  /** What one destination offers: its head row, sent to a sink that is there, free and speaks its protocol. */
  ghost predicate Claimable(db: Db, registry: Registry, run: Option<RunId>, at: int, id: Id) {
    && Head(db, run, at, id) && Ready(db, at, DestOf(db, id))
    && Compatible(registry, DestOf(db, id), db.deliveries[id].data.protocol)
  }

  function LeaseEnd(policy: Policy, at: int): int {
    at + Max(policy.timeout, 10000) + 20000
  }

  function TakenData(data: Delivery): Delivery {
    data.(state := InFlight, attempts := data.attempts + 1, cycleAttempts := data.cycleAttempts + 1,
          generation := data.generation + 1, nextAttempt := None)
  }

  function TakenRow(row: Row, at: int, token: Token): Row {
    Saved(row, TakenData(row.data)).(claim := Some(token), expires := Some(LeaseEnd(row.data.policy, at)))
  }

  // Destinations looked at and passed over on the way lose their lapsed reservation.
  function TakenDests(destinations: map<DestId, Dest>, skipped: set<DestId>, data: Delivery, at: int,
                      token: Token): map<DestId, Dest> {
    map d | d in destinations ::
      if d == data.destination then Dest(at + data.policy.spacing, Some(token), LeaseEnd(data.policy, at))
      else if d in skipped then destinations[d].(claim := None, expires := 0)
      else destinations[d]
  }

  function Take(db: Db, id: Id, skipped: set<DestId>, at: int, token: Token): Db
    requires id in db.deliveries
  {
    var row := db.deliveries[id];
    var taken := TakenData(row.data);
    db.(deliveries := db.deliveries[id := TakenRow(row, at, token)],
        attempts := db.attempts[(id, taken.attempts) := Attempt(row.data.cycle, at, None, Open, None)],
        destinations := TakenDests(db.destinations, skipped, row.data, at, token),
        issued := db.issued[token := Claimed(id, taken, token)],
        clock := at)
  }

  ghost predicate Skippable(db: Db, registry: Registry, run: Option<RunId>, at: int, d: DestId) {
    && Ready(db, at, d) && Enabled(registry, d)
    && exists id :: Head(db, run, at, id) && DestOf(db, id) == d
                    && !Compatible(registry, d, db.deliveries[id].data.protocol)
  }

  /** A claim takes a claimable row due no later than any other, or there is none and nothing changes. */
  ghost predicate Claims(db: Db, db': Db, registry: Registry, run: Option<RunId>, at: int, token: Token,
                         claimed: Option<Claimed>) {
    match claimed
    case None =>
      && (forall id :: !Claimable(db, registry, run, at, id))
      && db' == db.(clock := at)
    case Some(c) =>
      && Claimable(db, registry, run, at, c.id)
      && (forall o :: Claimable(db, registry, run, at, o) ==>
           db.deliveries[c.id].due.value <= db.deliveries[o].due.value)
      && exists skipped :: Takes(db, db', registry, run, at, token, c, skipped)
  }

  ghost predicate Takes(db: Db, db': Db, registry: Registry, run: Option<RunId>, at: int, token: Token, c: Claimed,
                        skipped: set<DestId>) {
    && c.id in db.deliveries
    && (forall d :: d in skipped ==> Skippable(db, registry, run, at, d))
    && db' == Take(db, c.id, skipped, at, token)
    && c == Claimed(c.id, TakenData(db.deliveries[c.id].data), token)
  }

  // ----------------------------------------------------------- settling

  /** What the receiver answered: nothing wrong, or a refusal and when to try again if ever. */
  datatype Answer = Ack | Nack(retry: bool, cooldown: bool, due: Option<int>, text: string)

  predicate Fenced(db: Db, claim: Claimed, at: int) {
    && claim.id in db.deliveries
    && var row := db.deliveries[claim.id];
       row.claim == Some(claim.token) && row.expires.Some? && row.expires.value > at && row.state.InFlight?
  }

  function RefusedState(row: Delivery, answer: Answer): DeliveryState
    requires answer.Nack?
  {
    if answer.retry && answer.due.None? then Failed
    else if answer.retry && row.cycleAttempts < row.policy.attempts then Pending
    else Failed
  }

  // Written from the record the claim carried, not from the one now stored.
  function SettledData(row: Delivery, answer: Answer, at: int): Delivery {
    var next := row.(generation := row.generation + 1);
    match answer
    case Ack => next.(state := Delivered, deliveredAt := Some(at), lastError := None)
    case Nack(retry, _, due, text) =>
      var state := RefusedState(row, answer);
      next.(state := state,
            lastError := Some(if due.None? && retry then OutOfRange else Refusal(text)),
            nextAttempt := if state.Pending? then due else None)
  }

  function SettledAttempt(a: Attempt, answer: Answer, at: int): Attempt {
    match answer
    case Ack => a.(finishedAt := Some(at), outcome := Accepted)
    case Nack(retry, _, _, text) =>
      a.(finishedAt := Some(at), error := Some(Refusal(text)),
         outcome := if retry then RetryableFailure else PermanentFailure)
  }

  function SettledRow(row: Row, claim: Claimed, answer: Answer, at: int): Row {
    var saved := Saved(Released(row), SettledData(claim.row, answer, at));
    if answer.Ack? then saved.(settled := Some(at)) else saved
  }

  function Cooled(destinations: map<DestId, Dest>, d: DestId, answer: Answer): map<DestId, Dest> {
    if d in destinations && answer.Nack? && answer.cooldown && answer.due.Some?
    then destinations[d := destinations[d].(nextAt := Max(destinations[d].nextAt, answer.due.value))]
    else destinations
  }

  function Settle(db: Db, claim: Claimed, answer: Answer, at: int): Db
    requires claim.id in db.deliveries && (claim.id, claim.row.attempts) in db.attempts
  {
    var key := (claim.id, claim.row.attempts);
    db.(deliveries := db.deliveries[claim.id := SettledRow(db.deliveries[claim.id], claim, answer, at)],
        attempts := db.attempts[key := SettledAttempt(db.attempts[key], answer, at)],
        destinations := Unclaimed(Cooled(db.destinations, claim.row.destination, answer), claim.row.destination,
                                  Some(claim.token)),
        clock := at)
  }

  // ----------------------------------------------------------- reconciling one row

  predicate Lapsed(row: Row, at: int) {
    row.data.state.InFlight? && (row.expires.Some? ==> row.expires.value <= at)
  }

  predicate StillLeased(row: Row, at: int) {
    row.data.state.InFlight? && !Lapsed(row, at)
  }

  function RecoveredData(data: Delivery, at: int): Delivery {
    var state := if data.cycleAttempts >= data.policy.attempts then Failed else Pending;
    data.(state := state, lastError := Some(LeaseExpired),
          nextAttempt := if state.Pending? then Some(at) else None, generation := data.generation + 1)
  }

  function Requalified(registry: Registry, data: Delivery, at: int): Delivery {
    var compatible := Compatible(registry, data.destination, data.protocol);
    if data.state.Pending? && !compatible then
      data.(state := Blocked, lastError := Some(Incompatible), generation := data.generation + 1)
    else if data.state.Blocked? && compatible && data.lastError == Some(Incompatible) then
      data.(state := Pending, nextAttempt := Some(at), lastError := None, generation := data.generation + 1)
    else data
  }

  function Reconciled(registry: Registry, data: Delivery, at: int): Delivery {
    Requalified(registry, if data.state.InFlight? then RecoveredData(data, at) else data, at)
  }

  function ReconciledRow(registry: Registry, row: Row, at: int): Row {
    var next := Reconciled(registry, row.data, at);
    var base := if row.data.state.InFlight? then Released(row) else row;
    if next.generation != row.data.generation then Saved(base, next) else base
  }

  /** One row's transaction: give up a lapsed lease, then block or unblock what the registry says. */
  function Reconcile(db: Db, registry: Registry, id: Id, at: int): Db
    requires id in db.deliveries
    requires db.deliveries[id].data.state.InFlight? ==> (id, db.deliveries[id].data.attempts) in db.attempts
  {
    var row := db.deliveries[id];
    if StillLeased(row, at) then db.(clock := at)
    else
      var key := (id, row.data.attempts);
      var listed := Enlisted(db.destinations, row.data.destination);
      db.(deliveries := db.deliveries[id := ReconciledRow(registry, row, at)],
          attempts := if row.data.state.InFlight?
                      then db.attempts[key := db.attempts[key].(finishedAt := Some(at), outcome := Unknown,
                                                                error := Some(LeaseExpired))]
                      else db.attempts,
          destinations := if row.data.state.InFlight? then Unclaimed(listed, row.data.destination, row.claim)
                          else listed,
          clock := at)
  }

  // ----------------------------------------------------------- control and pruning

  datatype ControlError = UnknownDelivery | Changed | NotRetryable | NotDismissable

  function Judge(db: Db, registry: Registry, id: Id, generation: nat, retry: bool): Option<ControlError> {
    if id !in db.deliveries then Some(UnknownDelivery)
    else
      var data := db.deliveries[id].data;
      if data.generation != generation then Some(Changed)
      else if retry then
        if data.state.Failed? && Compatible(registry, data.destination, data.protocol) then None else Some(NotRetryable)
      else if data.state.Failed? || data.state.Pending? || data.state.Blocked? then None
      else Some(NotDismissable)
  }

  function ControlledData(data: Delivery, retry: bool, at: int): Delivery {
    if retry then
      data.(state := Pending, cycle := data.cycle + 1, cycleAttempts := 0, nextAttempt := Some(at),
            generation := data.generation + 1)
    else data.(state := Dismissed, nextAttempt := None, generation := data.generation + 1)
  }

  function ControlledRow(row: Row, retry: bool, at: int): Row {
    var saved := Saved(row, ControlledData(row.data, retry, at));
    if retry then saved else saved.(settled := Some(at))
  }

  function Control(db: Db, id: Id, retry: bool, at: int): Db
    requires id in db.deliveries
  {
    db.(deliveries := db.deliveries[id := ControlledRow(db.deliveries[id], retry, at)], clock := at)
  }

  predicate Prunable(row: Row, older: int) {
    Settled(row.state) && row.settled.Some? && row.settled.value < older
  }

  predicate InUse(db: Db, d: DestId) {
    || (exists id :: id in db.deliveries && db.deliveries[id].data.destination == d)
    || exists key :: key in db.routes && key.1 == d
  }

  function KeptDeliveries(deliveries: map<Id, Row>, older: int): map<Id, Row> {
    map id | id in deliveries && !Prunable(deliveries[id], older) :: deliveries[id]
  }

  function KeptAttempts(db: Db, older: int): map<(Id, nat), Attempt> {
    map key | key in db.attempts && !(key.0 in db.deliveries && Prunable(db.deliveries[key.0], older)) ::
      db.attempts[key]
  }

  function NamedDests(destinations: map<DestId, Dest>, kept: Db): map<DestId, Dest> {
    map d | d in destinations && (destinations[d].claim.Some? || InUse(kept, d)) :: destinations[d]
  }

  /** Settled rows go with their attempts, and a destination's row with the last thing that named it. */
  function Prune(db: Db, older: int, at: int): Db {
    var kept := db.(deliveries := KeptDeliveries(db.deliveries, older));
    kept.(attempts := KeptAttempts(db, older),
          destinations := NamedDests(db.destinations, kept),
          clock := at)
  }
}
