/**
 * What every delivery transaction keeps (src/delivery_store.rs): leases and
 * fences, the attempt ledger, and routes consumed once.
 */
module DeliveryInvariant {
  import opened Prelude
  import opened Deliveries

  // ----------------------------------------------------------- one row

  predicate Mirrors(row: Row) {
    row.state == row.data.state && row.due == row.data.nextAttempt
  }

  /** A lease is held exactly in flight; a row is scheduled exactly while it waits. */
  predicate Leased(row: Row) {
    && (row.data.state.InFlight? <==> row.claim.Some?)
    && (row.data.state.InFlight? <==> row.expires.Some?)
    && (row.data.nextAttempt.Some? <==> Owed(row.data.state))
    && (row.settled.Some? <==> Settled(row.data.state))
    && (row.data.deliveredAt.Some? <==> row.data.state.Delivered?)
    && (row.data.state.Blocked? ==> row.data.lastError == Some(Incompatible))
  }

  predicate Spent(data: Delivery) {
    && data.policy.attempts >= 1 && data.cycle >= 1
    && data.cycleAttempts <= data.policy.attempts
    && (Owed(data.state) ==> data.cycleAttempts < data.policy.attempts)
    && (data.state.InFlight? || data.state.Delivered? ==> data.cycleAttempts >= 1)
    && data.cycleAttempts <= data.attempts
    && data.attempts <= (data.cycle - 1) * data.policy.attempts + data.cycleAttempts
  }

  predicate RowOk(row: Row) {
    Mirrors(row) && Leased(row) && Spent(row.data)
  }

  // ----------------------------------------------------------- a row and the other tables

  /** An unexpired lease is also the destination's. */
  predicate Matched(row: Row, destinations: map<DestId, Dest>, clock: int) {
    row.data.state.InFlight? && row.expires.Some? && row.expires.value > clock ==>
      && row.data.destination in destinations
      && destinations[row.data.destination].claim == row.claim
      && destinations[row.data.destination].expires == row.expires.value
  }

  /** What is in flight is what was handed out. */
  predicate HandedOut(id: Id, row: Row, issued: map<Token, Claimed>) {
    row.data.state.InFlight? && row.claim.Some? ==>
      row.claim.value in issued && issued[row.claim.value] == Claimed(id, row.data, row.claim.value)
  }

  /**
   * One attempt's line in the ledger: open iff the latest of a row in flight,
   * accepted iff the latest of a delivered one.
   */
  predicate Entered(a: Attempt, n: nat, data: Delivery) {
    && (a.outcome.Open? <==> n == data.attempts && data.state.InFlight?)
    && (a.outcome.Accepted? <==> n == data.attempts && data.state.Delivered?)
    && (a.finishedAt.None? <==> a.outcome.Open?)
    && 1 <= a.cycle <= data.cycle
    && (a.cycle == data.cycle <==> n + data.cycleAttempts > data.attempts)
  }

  ghost predicate Ledger(id: Id, data: Delivery, attempts: map<(Id, nat), Attempt>) {
    && (forall n :: (id, n) in attempts <==> 1 <= n <= data.attempts)
    && forall n :: (id, n) in attempts ==> Entered(attempts[(id, n)], n, data)
  }

  // ----------------------------------------------------------- the whole store

  ghost predicate Rows(db: Db) {
    forall id :: id in db.deliveries ==> RowOk(db.deliveries[id])
  }

  ghost predicate Leases(db: Db) {
    && (forall id :: id in db.deliveries ==> Matched(db.deliveries[id], db.destinations, db.clock))
    && (forall id :: id in db.deliveries ==> HandedOut(id, db.deliveries[id], db.issued))
    && (forall id :: id in db.deliveries ==> db.deliveries[id].data.destination in db.destinations)
    && forall t :: t in db.issued ==> db.issued[t].token == t
  }

  ghost predicate Ledgers(db: Db) {
    && (forall id :: id in db.deliveries ==> Ledger(id, db.deliveries[id].data, db.attempts))
    && forall key :: key in db.attempts ==> key.0 in db.deliveries
  }

  predicate SameRoute(a: Delivery, b: Delivery) {
    a.run == b.run && a.destination == b.destination
  }

  /** A run's destination has a route, or at most one delivery, and never both. */
  ghost predicate Conserved(db: Db) {
    && (forall a, b :: a in db.deliveries && b in db.deliveries ==>
         (SameRoute(db.deliveries[a].data, db.deliveries[b].data) ==> a == b))
    && (forall id :: id in db.deliveries ==> db.deliveries[id].data.run in db.runs)
    && (forall id :: id in db.deliveries ==>
         (db.deliveries[id].data.run, db.deliveries[id].data.destination) !in db.routes)
    && (forall key :: key in db.routes ==> key.0 in db.runs && db.routes[key].policy.attempts >= 1)
  }

  ghost predicate Inv(db: Db) {
    Rows(db) && Leases(db) && Ledgers(db) && Conserved(db)
  }

  // ----------------------------------------------------------- what the invariant says

  /** Each destination has at most one delivery in flight whose lease is running. */
  lemma OneInFlight(db: Db, a: Id, b: Id)
    requires Inv(db) && a in db.deliveries && b in db.deliveries
    requires db.deliveries[a].data.state.InFlight? && db.deliveries[b].data.state.InFlight?
    requires db.deliveries[a].expires.value > db.clock && db.deliveries[b].expires.value > db.clock
    requires db.deliveries[a].data.destination == db.deliveries[b].data.destination
    ensures a == b
    ensures db.destinations[db.deliveries[a].data.destination].claim == db.deliveries[a].claim
    ensures db.destinations[db.deliveries[a].data.destination].expires == db.deliveries[a].expires.value
  {
    assert RowOk(db.deliveries[a]) && RowOk(db.deliveries[b]);
    assert Matched(db.deliveries[a], db.destinations, db.clock) && Matched(db.deliveries[b], db.destinations, db.clock);
    assert HandedOut(a, db.deliveries[a], db.issued) && HandedOut(b, db.deliveries[b], db.issued);
  }

  /** When the fence passes, the stored record is the one the claim carries: writing back from it loses nothing. */
  lemma FenceMeansUnchanged(db: Db, claim: Claimed, at: int)
    requires Inv(db) && claim.token in db.issued && db.issued[claim.token] == claim && Fenced(db, claim, at)
    ensures db.deliveries[claim.id].data == claim.row
    ensures (claim.id, claim.row.attempts) in db.attempts && db.attempts[(claim.id, claim.row.attempts)].outcome.Open?
  {
    assert RowOk(db.deliveries[claim.id]);
    assert HandedOut(claim.id, db.deliveries[claim.id], db.issued);
    assert Ledger(claim.id, db.deliveries[claim.id].data, db.attempts);
    assert Entered(db.attempts[(claim.id, claim.row.attempts)], claim.row.attempts, claim.row);
  }

  /** Total attempts stay within what the policy allows each cycle. */
  lemma AttemptsBounded(db: Db, id: Id)
    requires Inv(db) && id in db.deliveries
    ensures db.deliveries[id].data.attempts <= db.deliveries[id].data.cycle * db.deliveries[id].data.policy.attempts
  {
    var data := db.deliveries[id].data;
    assert RowOk(db.deliveries[id]);
    assert (data.cycle - 1) * data.policy.attempts + data.policy.attempts == data.cycle * data.policy.attempts;
  }

  // ----------------------------------------------------------- one row changed

  ghost predicate OthersSame(db: Db, db': Db, id: Id) {
    && db'.deliveries.Keys == db.deliveries.Keys + {id}
    && forall o :: o in db.deliveries && o != id ==> db'.deliveries[o] == db.deliveries[o]
  }

  // Identity and routing are fixed when a delivery is made.
  predicate SameIdentity(a: Delivery, b: Delivery) {
    a.run == b.run && a.destination == b.destination && a.protocol == b.protocol && a.policy == b.policy
  }

  lemma RowsKept(db: Db, db': Db, id: Id)
    requires Rows(db) && OthersSame(db, db', id) && RowOk(db'.deliveries[id])
    ensures Rows(db')
  {
    forall o | o in db'.deliveries ensures RowOk(db'.deliveries[o]) {
      assert o == id || o in db.deliveries;
    }
  }

  lemma LedgersKept(db: Db, db': Db, id: Id)
    requires Ledgers(db) && OthersSame(db, db', id) && id in db'.deliveries
    requires forall key: (Id, nat) :: key.0 != id ==> (key in db.attempts <==> key in db'.attempts)
    requires forall key: (Id, nat) :: key.0 != id && key in db.attempts ==> db'.attempts[key] == db.attempts[key]
    requires Ledger(id, db'.deliveries[id].data, db'.attempts)
    ensures Ledgers(db')
  {
    forall o | o in db'.deliveries ensures Ledger(o, db'.deliveries[o].data, db'.attempts) {
      if o != id {
        assert o in db.deliveries && Ledger(o, db.deliveries[o].data, db.attempts);
        forall n ensures (o, n) in db'.attempts <==> 1 <= n <= db.deliveries[o].data.attempts {
          assert (o, n) in db.attempts <==> (o, n) in db'.attempts;
        }
      }
    }
    forall key | key in db'.attempts ensures key.0 in db'.deliveries {
      if key.0 != id {
        assert key in db.attempts;
      }
    }
  }

  lemma ConservedKept(db: Db, db': Db, id: Id)
    requires Conserved(db) && id in db.deliveries && OthersSame(db, db', id)
    requires SameIdentity(db.deliveries[id].data, db'.deliveries[id].data)
    requires db'.routes == db.routes && db'.runs == db.runs
    ensures Conserved(db')
  {
    forall o | o in db'.deliveries
      ensures o in db.deliveries && SameIdentity(db.deliveries[o].data, db'.deliveries[o].data)
    {
    }
  }

  // A row that was not touched keeps its lease matched when its destination's row moved only past an expired lease.
  ghost predicate DestsKept(db: Db, db': Db, id: Id) {
    && db.clock <= db'.clock
    && (forall d :: d in db.destinations ==> d in db'.destinations)
    && forall o :: o in db.deliveries && o != id && db.deliveries[o].data.state.InFlight? ==>
         Matched(db.deliveries[o], db'.destinations, db'.clock)
  }

  lemma LeasesKept(db: Db, db': Db, id: Id)
    requires Leases(db) && id in db.deliveries && OthersSame(db, db', id) && DestsKept(db, db', id)
    requires db.deliveries[id].data.destination == db'.deliveries[id].data.destination
    requires Matched(db'.deliveries[id], db'.destinations, db'.clock) && HandedOut(id, db'.deliveries[id], db'.issued)
    requires forall t :: t in db.issued ==> t in db'.issued && db'.issued[t] == db.issued[t]
    requires forall t :: t in db'.issued ==> db'.issued[t].token == t
    ensures Leases(db')
  {
    forall o | o in db'.deliveries
      ensures Matched(db'.deliveries[o], db'.destinations, db'.clock) && HandedOut(o, db'.deliveries[o], db'.issued)
              && db'.deliveries[o].data.destination in db'.destinations
    {
      if o != id {
        assert HandedOut(o, db.deliveries[o], db.issued);
      }
    }
  }

  // ----------------------------------------------------------- claiming

  lemma TakenRowOk(row: Row, at: int, token: Token)
    requires RowOk(row) && row.data.state.Pending?
    ensures RowOk(TakenRow(row, at, token))
  {
  }

  lemma TakenLedger(id: Id, row: Row, at: int, attempts: map<(Id, nat), Attempt>)
    requires RowOk(row) && row.data.state.Pending? && Ledger(id, row.data, attempts)
    ensures Ledger(id, TakenData(row.data), attempts[(id, row.data.attempts + 1) := Attempt(row.data.cycle, at, None,
                                                                                            Open, None)])
  {
    var taken := TakenData(row.data);
    var after := attempts[(id, row.data.attempts + 1) := Attempt(row.data.cycle, at, None, Open, None)];
    forall n | (id, n) in after ensures Entered(after[(id, n)], n, taken) {
      if n != taken.attempts {
        assert Entered(attempts[(id, n)], n, row.data);
      }
    }
  }

  lemma TakenDestsKept(db: Db, id: Id, skipped: set<DestId>, at: int, token: Token)
    requires Leases(db) && Rows(db) && id in db.deliveries && at >= db.clock && Ready(db, at, DestOf(db, id))
    requires forall d :: d in skipped ==> Ready(db, at, d)
    ensures DestsKept(db, Take(db, id, skipped, at, token), id)
  {
    var db' := Take(db, id, skipped, at, token);
    forall o | o in db.deliveries && o != id && db.deliveries[o].data.state.InFlight?
      ensures Matched(db.deliveries[o], db'.destinations, db'.clock)
    {
      assert Matched(db.deliveries[o], db.destinations, db.clock);
    }
  }

  lemma TakeKeepsLeases(db: Db, id: Id, skipped: set<DestId>, at: int, token: Token)
    requires Leases(db) && Rows(db) && id in db.deliveries && at >= db.clock && Ready(db, at, DestOf(db, id))
    requires token !in db.issued && forall d :: d in skipped ==> Ready(db, at, d)
    ensures Leases(Take(db, id, skipped, at, token))
  {
    TakenDestsKept(db, id, skipped, at, token);
    LeasesKept(db, Take(db, id, skipped, at, token), id);
  }

  lemma TakeKeepsLedgers(db: Db, id: Id, skipped: set<DestId>, at: int, token: Token)
    requires Ledgers(db) && Rows(db) && id in db.deliveries && db.deliveries[id].data.state.Pending?
    ensures Ledgers(Take(db, id, skipped, at, token))
  {
    assert RowOk(db.deliveries[id]);
    TakenLedger(id, db.deliveries[id], at, db.attempts);
    LedgersKept(db, Take(db, id, skipped, at, token), id);
  }

  /** A claim by a destination that is free keeps the invariant. */
  lemma TakeKeepsInv(db: Db, id: Id, skipped: set<DestId>, at: int, token: Token)
    requires Inv(db) && id in db.deliveries && db.deliveries[id].state.Pending? && at >= db.clock
    requires Ready(db, at, DestOf(db, id)) && token !in db.issued && forall d :: d in skipped ==> Ready(db, at, d)
    ensures Inv(Take(db, id, skipped, at, token))
  {
    var db' := Take(db, id, skipped, at, token);
    assert RowOk(db.deliveries[id]);
    TakenRowOk(db.deliveries[id], at, token);
    RowsKept(db, db', id);
    TakeKeepsLedgers(db, id, skipped, at, token);
    TakeKeepsLeases(db, id, skipped, at, token);
    ConservedKept(db, db', id);
  }

  // ----------------------------------------------------------- giving a lease up

  /** What settling or recovering leaves of the row it closes. */
  predicate Closed(was: Delivery, now: Delivery) {
    && was.state.InFlight? && !now.state.InFlight? && SameIdentity(was, now)
    && now.attempts == was.attempts && now.cycle == was.cycle && now.cycleAttempts == was.cycleAttempts
  }

  lemma ClosedLedger(id: Id, was: Delivery, now: Delivery, attempts: map<(Id, nat), Attempt>, a: Attempt)
    requires Closed(was, now) && Ledger(id, was, attempts) && (id, was.attempts) in attempts
    requires a.cycle == attempts[(id, was.attempts)].cycle && a.finishedAt.Some? && !a.outcome.Open?
    requires a.outcome.Accepted? <==> now.state.Delivered?
    ensures Ledger(id, now, attempts[(id, was.attempts) := a])
  {
    var after := attempts[(id, was.attempts) := a];
    forall n | (id, n) in after ensures Entered(after[(id, n)], n, now) {
      assert Entered(attempts[(id, n)], n, was);
    }
  }

  lemma UnclaimedKeeps(db: Db, destinations: map<DestId, Dest>, d: DestId, token: Token, id: Id, o: Id)
    requires Leases(db) && Rows(db) && id in db.deliveries && o in db.deliveries && o != id
    requires db.deliveries[id].data.state.InFlight? && db.deliveries[id].claim == Some(token)
    requires db.deliveries[o].data.state.InFlight?
    requires Matched(db.deliveries[o], destinations, db.clock)
    ensures Matched(db.deliveries[o], Unclaimed(destinations, d, Some(token)), db.clock)
  {
    assert RowOk(db.deliveries[o]);
    assert HandedOut(o, db.deliveries[o], db.issued) && HandedOut(id, db.deliveries[id], db.issued);
  }

  // ----------------------------------------------------------- settling

  lemma SettledRowOk(row: Row, claim: Claimed, answer: Answer, at: int)
    requires RowOk(row) && row.data.state.InFlight? && row.data == claim.row
    ensures RowOk(SettledRow(row, claim, answer, at)) && Closed(row.data, SettledRow(row, claim, answer, at).data)
  {
  }

  lemma SettledLedger(row: Row, claim: Claimed, answer: Answer, at: int, attempts: map<(Id, nat), Attempt>)
    requires RowOk(row) && row.data.state.InFlight? && row.data == claim.row && Ledger(claim.id, row.data, attempts)
    requires (claim.id, claim.row.attempts) in attempts
    ensures Ledger(claim.id, SettledRow(row, claim, answer, at).data,
                   attempts[(claim.id, claim.row.attempts) := SettledAttempt(attempts[(claim.id, claim.row.attempts)],
                                                                             answer, at)])
  {
    SettledRowOk(row, claim, answer, at);
    ClosedLedger(claim.id, row.data, SettledRow(row, claim, answer, at).data, attempts,
                 SettledAttempt(attempts[(claim.id, claim.row.attempts)], answer, at));
  }

  lemma SettleKeepsLedgers(db: Db, claim: Claimed, answer: Answer, at: int)
    requires Ledgers(db) && Rows(db) && claim.id in db.deliveries && db.deliveries[claim.id].data == claim.row
    requires claim.row.state.InFlight?
    requires (claim.id, claim.row.attempts) in db.attempts
    ensures Ledgers(Settle(db, claim, answer, at))
  {
    assert RowOk(db.deliveries[claim.id]) && Ledger(claim.id, db.deliveries[claim.id].data, db.attempts);
    SettledLedger(db.deliveries[claim.id], claim, answer, at, db.attempts);
    LedgersKept(db, Settle(db, claim, answer, at), claim.id);
  }

  lemma CooledKeeps(row: Row, destinations: map<DestId, Dest>, d: DestId, answer: Answer, clock: int)
    requires Matched(row, destinations, clock)
    ensures Matched(row, Cooled(destinations, d, answer), clock)
  {
  }

  lemma SettleKeepsLeases(db: Db, claim: Claimed, answer: Answer, at: int)
    requires Leases(db) && Rows(db) && claim.id in db.deliveries && at >= db.clock
    requires db.deliveries[claim.id].data == claim.row && claim.row.state.InFlight?
    requires db.deliveries[claim.id].claim == Some(claim.token) && (claim.id, claim.row.attempts) in db.attempts
    ensures Leases(Settle(db, claim, answer, at))
  {
    var db' := Settle(db, claim, answer, at);
    SettledRowOk(db.deliveries[claim.id], claim, answer, at);
    forall o | o in db.deliveries && o != claim.id && db.deliveries[o].data.state.InFlight?
      ensures Matched(db.deliveries[o], db'.destinations, db'.clock)
    {
      assert Matched(db.deliveries[o], db.destinations, db.clock);
      CooledKeeps(db.deliveries[o], db.destinations, claim.row.destination, answer, db.clock);
      UnclaimedKeeps(db, Cooled(db.destinations, claim.row.destination, answer), claim.row.destination, claim.token,
                     claim.id, o);
    }
    LeasesKept(db, db', claim.id);
  }

  /** Settling a claim the fence lets through keeps the invariant. */
  lemma SettleKeepsInv(db: Db, claim: Claimed, answer: Answer, at: int)
    requires Inv(db) && claim.token in db.issued && db.issued[claim.token] == claim && Fenced(db, claim, at)
    requires at >= db.clock
    requires (claim.id, claim.row.attempts) in db.attempts
    ensures Inv(Settle(db, claim, answer, at))
  {
    FenceMeansUnchanged(db, claim, at);
    assert RowOk(db.deliveries[claim.id]);
    SettledRowOk(db.deliveries[claim.id], claim, answer, at);
    var db' := Settle(db, claim, answer, at);
    RowsKept(db, db', claim.id);
    SettleKeepsLedgers(db, claim, answer, at);
    SettleKeepsLeases(db, claim, answer, at);
    ConservedKept(db, db', claim.id);
  }

  // ----------------------------------------------------------- reconciling

  lemma ReconciledRowOk(registry: Registry, row: Row, at: int)
    requires RowOk(row) && !StillLeased(row, at)
    ensures RowOk(ReconciledRow(registry, row, at)) && SameIdentity(row.data, ReconciledRow(registry, row, at).data)
    ensures row.data.state.InFlight? ==> Closed(row.data, ReconciledRow(registry, row, at).data)
    ensures !ReconciledRow(registry, row, at).data.state.InFlight?
    ensures ReconciledRow(registry, row, at).data.state.Delivered? <==> row.data.state.Delivered?
  {
  }

  // A row that was not in flight and stays out of flight keeps its ledger.
  lemma IdleLedger(id: Id, was: Delivery, now: Delivery, attempts: map<(Id, nat), Attempt>)
    requires Ledger(id, was, attempts) && !was.state.InFlight? && !now.state.InFlight?
    requires was.state.Delivered? <==> now.state.Delivered?
    requires now.attempts == was.attempts && now.cycle == was.cycle && now.cycleAttempts == was.cycleAttempts
    ensures Ledger(id, now, attempts)
  {
    forall n | (id, n) in attempts ensures Entered(attempts[(id, n)], n, now) {
      assert Entered(attempts[(id, n)], n, was);
    }
  }

  lemma ReconciledCounts(registry: Registry, data: Delivery, at: int)
    ensures Reconciled(registry, data, at).attempts == data.attempts
    ensures Reconciled(registry, data, at).cycle == data.cycle
    ensures Reconciled(registry, data, at).cycleAttempts == data.cycleAttempts
  {
  }

  // The ledger one reconciled row leaves.
  function ReconciledAttempts(id: Id, row: Row, at: int, attempts: map<(Id, nat), Attempt>): map<(Id, nat), Attempt>
    requires row.data.state.InFlight? ==> (id, row.data.attempts) in attempts
  {
    var key := (id, row.data.attempts);
    if row.data.state.InFlight?
    then attempts[key := attempts[key].(finishedAt := Some(at), outcome := Unknown, error := Some(LeaseExpired))]
    else attempts
  }

  lemma ReconciledLedger(registry: Registry, id: Id, row: Row, at: int, attempts: map<(Id, nat), Attempt>)
    requires RowOk(row) && !StillLeased(row, at) && Ledger(id, row.data, attempts)
    requires row.data.state.InFlight? ==> (id, row.data.attempts) in attempts
    ensures Ledger(id, ReconciledRow(registry, row, at).data, ReconciledAttempts(id, row, at, attempts))
  {
    ReconciledRowOk(registry, row, at);
    if row.data.state.InFlight? {
      ClosedLedger(id, row.data, ReconciledRow(registry, row, at).data, attempts,
                   attempts[(id, row.data.attempts)].(finishedAt := Some(at), outcome := Unknown,
                                                      error := Some(LeaseExpired)));
    } else {
      ReconciledCounts(registry, row.data, at);
      IdleLedger(id, row.data, ReconciledRow(registry, row, at).data, attempts);
    }
  }

  lemma ReconcileKeepsLedgers(db: Db, registry: Registry, id: Id, at: int)
    requires Ledgers(db) && Rows(db) && id in db.deliveries && !StillLeased(db.deliveries[id], at)
    requires db.deliveries[id].data.state.InFlight? ==> (id, db.deliveries[id].data.attempts) in db.attempts
    ensures Ledgers(Reconcile(db, registry, id, at))
  {
    assert RowOk(db.deliveries[id]) && Ledger(id, db.deliveries[id].data, db.attempts);
    ReconciledLedger(registry, id, db.deliveries[id], at, db.attempts);
    assert Reconcile(db, registry, id, at).attempts == ReconciledAttempts(id, db.deliveries[id], at, db.attempts);
    LedgersKept(db, Reconcile(db, registry, id, at), id);
  }

  lemma ReconcileKeepsLeases(db: Db, registry: Registry, id: Id, at: int)
    requires Leases(db) && Rows(db) && id in db.deliveries && at >= db.clock && !StillLeased(db.deliveries[id], at)
    requires db.deliveries[id].data.state.InFlight? ==> (id, db.deliveries[id].data.attempts) in db.attempts
    ensures Leases(Reconcile(db, registry, id, at))
  {
    var db', row := Reconcile(db, registry, id, at), db.deliveries[id];
    assert RowOk(row);
    ReconciledRowOk(registry, row, at);
    forall o | o in db.deliveries && o != id && db.deliveries[o].data.state.InFlight?
      ensures Matched(db.deliveries[o], db'.destinations, db'.clock)
    {
      assert Matched(db.deliveries[o], db.destinations, db.clock);
      assert Matched(db.deliveries[o], Enlisted(db.destinations, row.data.destination), db.clock);
      if row.data.state.InFlight? {
        UnclaimedKeeps(db, Enlisted(db.destinations, row.data.destination), row.data.destination, row.claim.value, id,
                       o);
      }
    }
    LeasesKept(db, db', id);
  }

  lemma TickKeepsInv(db: Db, at: int)
    requires Inv(db) && at >= db.clock
    ensures Inv(db.(clock := at))
  {
    var db' := db.(clock := at);
    forall id | id in db'.deliveries ensures Matched(db'.deliveries[id], db'.destinations, db'.clock) {
      assert Matched(db.deliveries[id], db.destinations, db.clock);
    }
    forall id | id in db'.deliveries ensures HandedOut(id, db'.deliveries[id], db'.issued) {
      assert HandedOut(id, db.deliveries[id], db.issued);
    }
  }

  /** Reconciling a row, with any registry, keeps the invariant. */
  lemma ReconcileKeepsInv(db: Db, registry: Registry, id: Id, at: int)
    requires Inv(db) && id in db.deliveries && at >= db.clock
    requires db.deliveries[id].data.state.InFlight? ==> (id, db.deliveries[id].data.attempts) in db.attempts
    ensures Inv(Reconcile(db, registry, id, at))
  {
    if StillLeased(db.deliveries[id], at) {
      TickKeepsInv(db, at);
    } else {
      var db' := Reconcile(db, registry, id, at);
      assert RowOk(db.deliveries[id]);
      ReconciledRowOk(registry, db.deliveries[id], at);
      RowsKept(db, db', id);
      ReconcileKeepsLedgers(db, registry, id, at);
      ReconcileKeepsLeases(db, registry, id, at);
      ConservedKept(db, db', id);
    }
  }

  // ----------------------------------------------------------- control

  lemma ControlledRowOk(row: Row, retry: bool, at: int)
    requires RowOk(row) && (if retry then row.data.state.Failed? else row.data.state.Failed? || Owed(row.data.state))
    ensures RowOk(ControlledRow(row, retry, at)) && SameIdentity(row.data, ControlledRow(row, retry, at).data)
  {
    if retry {
      var data := row.data;
      assert (data.cycle - 1) * data.policy.attempts + data.policy.attempts == data.cycle * data.policy.attempts;
    }
  }

  lemma ControlledLedger(id: Id, data: Delivery, retry: bool, at: int, attempts: map<(Id, nat), Attempt>)
    requires Ledger(id, data, attempts) && !data.state.InFlight? && !data.state.Delivered?
    ensures Ledger(id, ControlledData(data, retry, at), attempts)
  {
    var now := ControlledData(data, retry, at);
    forall n | (id, n) in attempts ensures Entered(attempts[(id, n)], n, now) {
      assert Entered(attempts[(id, n)], n, data);
    }
  }

  lemma ControlKeepsLeases(db: Db, id: Id, retry: bool, at: int)
    requires Leases(db) && id in db.deliveries && at >= db.clock
    ensures Leases(Control(db, id, retry, at))
  {
    var db' := Control(db, id, retry, at);
    forall o | o in db.deliveries ensures Matched(db.deliveries[o], db'.destinations, db'.clock) {
      assert Matched(db.deliveries[o], db.destinations, db.clock);
    }
    LeasesKept(db, db', id);
  }

  lemma ControlKeepsLedgers(db: Db, id: Id, retry: bool, at: int)
    requires Ledgers(db) && id in db.deliveries && !db.deliveries[id].data.state.InFlight?
    requires !db.deliveries[id].data.state.Delivered?
    ensures Ledgers(Control(db, id, retry, at))
  {
    assert Ledger(id, db.deliveries[id].data, db.attempts);
    ControlledLedger(id, db.deliveries[id].data, retry, at, db.attempts);
    LedgersKept(db, Control(db, id, retry, at), id);
  }

  /** A control that is not refused keeps the invariant. */
  lemma ControlKeepsInv(db: Db, registry: Registry, id: Id, generation: nat, retry: bool, at: int)
    requires Inv(db) && Judge(db, registry, id, generation, retry).None? && at >= db.clock
    ensures Inv(Control(db, id, retry, at))
  {
    var db' := Control(db, id, retry, at);
    assert RowOk(db.deliveries[id]);
    ControlledRowOk(db.deliveries[id], retry, at);
    RowsKept(db, db', id);
    ControlKeepsLedgers(db, id, retry, at);
    ControlKeepsLeases(db, id, retry, at);
    ConservedKept(db, db', id);
  }

  // ----------------------------------------------------------- pruning

  lemma PruneKeepsLedgers(db: Db, older: int, at: int)
    requires Ledgers(db)
    ensures Ledgers(Prune(db, older, at))
  {
    var db' := Prune(db, older, at);
    forall id | id in db'.deliveries ensures Ledger(id, db'.deliveries[id].data, db'.attempts) {
      assert Ledger(id, db.deliveries[id].data, db.attempts);
      forall n ensures (id, n) in db'.attempts <==> 1 <= n <= db.deliveries[id].data.attempts {
      }
    }
  }

  lemma PruneKeepsLeases(db: Db, older: int, at: int)
    requires Leases(db) && at >= db.clock
    ensures Leases(Prune(db, older, at))
  {
    var db' := Prune(db, older, at);
    var kept := db.(deliveries := KeptDeliveries(db.deliveries, older));
    forall id | id in db'.deliveries
      ensures Matched(db'.deliveries[id], db'.destinations, db'.clock) && HandedOut(id, db'.deliveries[id], db'.issued)
              && db'.deliveries[id].data.destination in db'.destinations
    {
      assert id in kept.deliveries && InUse(kept, db.deliveries[id].data.destination);
      assert Matched(db.deliveries[id], db.destinations, db.clock) && HandedOut(id, db.deliveries[id], db.issued);
    }
  }

  /** Pruning keeps the invariant: nothing left refers to what went. */
  lemma PruneKeepsInv(db: Db, older: int, at: int)
    requires Inv(db) && at >= db.clock
    ensures Inv(Prune(db, older, at))
  {
    PruneKeepsLedgers(db, older, at);
    PruneKeepsLeases(db, older, at);
    forall id | id in Prune(db, older, at).deliveries ensures RowOk(Prune(db, older, at).deliveries[id]) {
      assert RowOk(db.deliveries[id]);
    }
  }

  // ----------------------------------------------------------- runs queued and finished

  lemma SameTables(db: Db, db': Db)
    requires Inv(db) && db.clock <= db'.clock
    requires db'.deliveries == db.deliveries && db'.attempts == db.attempts
    requires db'.destinations == db.destinations && db'.issued == db.issued
    ensures Rows(db') && Leases(db') && Ledgers(db')
  {
    forall id | id in db'.deliveries
      ensures Matched(db'.deliveries[id], db'.destinations, db'.clock) && HandedOut(id, db'.deliveries[id], db'.issued)
    {
      assert Matched(db.deliveries[id], db.destinations, db.clock) && HandedOut(id, db.deliveries[id], db.issued);
    }
    forall id | id in db'.deliveries ensures Ledger(id, db'.deliveries[id].data, db'.attempts) {
      assert Ledger(id, db.deliveries[id].data, db.attempts);
    }
  }

  lemma QueueKeepsConserved(db: Db, run: RunId, routes: map<DestId, Route>, at: int)
    requires Conserved(db) && run !in db.runs && forall d :: d in routes ==> routes[d].policy.attempts >= 1
    ensures Conserved(QueueRun(db, run, routes, at))
  {
    var added := map d | d in routes :: (run, d) := routes[d];
    var db' := QueueRun(db, run, routes, at);
    forall key | key in db'.routes ensures key.0 in db'.runs && db'.routes[key].policy.attempts >= 1 {
      if key in added {
        assert key.0 == run && db'.routes[key] == routes[key.1];
      }
    }
    forall id | id in db'.deliveries
      ensures (db'.deliveries[id].data.run, db'.deliveries[id].data.destination) !in db'.routes
    {
      assert db.deliveries[id].data.run in db.runs;
    }
  }

  /** Queueing a run nobody has queued before adds its routes and keeps the invariant. */
  lemma QueueKeepsInv(db: Db, run: RunId, routes: map<DestId, Route>, at: int)
    requires Inv(db) && run !in db.runs && at >= db.clock && forall d :: d in routes ==> routes[d].policy.attempts >= 1
    ensures Inv(QueueRun(db, run, routes, at))
  {
    SameTables(db, QueueRun(db, run, routes, at));
    QueueKeepsConserved(db, run, routes, at);
  }

  // The rows a finishing run adds, one for each destination it owes.
  ghost predicate Adds(db: Db, db': Db, run: RunId, ids: map<DestId, Id>, at: int) {
    && run in db.runs && FreshIds(db, Owes(db, run), ids)
    && db'.deliveries.Keys == db.deliveries.Keys + ids.Values
    && (forall id :: id in db.deliveries ==> db'.deliveries[id] == db.deliveries[id])
    && forall d :: d in ids ==> OwedAt(db, run, d) && db'.deliveries[ids[d]] == FreshRow(db, run, d, at)
  }

  predicate OwedAt(db: Db, run: RunId, d: DestId) {
    (run, d) in db.routes && run in db.runs && db.runs[run] in db.routes[(run, d)].statuses
  }

  lemma OwesAt(db: Db, run: RunId, d: DestId)
    requires run in db.runs
    ensures d in Owes(db, run) <==> OwedAt(db, run, d)
  {
    if OwedAt(db, run, d) {
      assert (run, d).0 == run && (run, d).1 == d;
    }
  }

  lemma FinishAdds(db: Db, db': Db, run: RunId, ids: map<DestId, Id>, at: int)
    requires Finishes(db, db', run, ids, at) && run in db.runs && db.runs[run].Terminal()
    requires exists d :: (run, d) in db.routes
    ensures Adds(db, db', run, ids, at)
  {
    forall d | d in ids ensures OwedAt(db, run, d) {
      OwesAt(db, run, d);
    }
  }

  lemma AddsKeepsRows(db: Db, db': Db, run: RunId, ids: map<DestId, Id>, at: int)
    requires Inv(db) && Adds(db, db', run, ids, at)
    ensures Rows(db')
  {
    forall id | id in db'.deliveries ensures RowOk(db'.deliveries[id]) {
      if id !in db.deliveries {
        var d :| d in ids && ids[d] == id;
        assert db.routes[(run, d)].policy.attempts >= 1;
      }
    }
  }

  lemma AddsKeepsLedgers(db: Db, db': Db, run: RunId, ids: map<DestId, Id>, at: int)
    requires Inv(db) && Adds(db, db', run, ids, at) && db'.attempts == db.attempts
    ensures Ledgers(db')
  {
    forall id | id in db'.deliveries ensures Ledger(id, db'.deliveries[id].data, db'.attempts) {
      if id in db.deliveries {
        assert Ledger(id, db.deliveries[id].data, db.attempts);
      } else {
        var d :| d in ids && ids[d] == id;
        assert db'.deliveries[id] == FreshRow(db, run, d, at);
        forall n ensures (id, n) !in db'.attempts {
          assert (id, n) in db.attempts ==> (id, n).0 in db.deliveries;
        }
      }
    }
  }

  lemma AddsKeepsLeases(db: Db, db': Db, run: RunId, ids: map<DestId, Id>, at: int)
    requires Inv(db) && Adds(db, db', run, ids, at) && db'.issued == db.issued && db'.clock >= db.clock
    requires db'.destinations.Keys == db.destinations.Keys + ids.Keys
    requires forall d :: d in db.destinations ==> db'.destinations[d] == db.destinations[d]
    ensures Leases(db')
  {
    forall id | id in db'.deliveries
      ensures Matched(db'.deliveries[id], db'.destinations, db'.clock) && HandedOut(id, db'.deliveries[id], db'.issued)
              && db'.deliveries[id].data.destination in db'.destinations
    {
      if id in db.deliveries {
        assert Matched(db.deliveries[id], db.destinations, db.clock) && HandedOut(id, db.deliveries[id], db.issued);
      } else {
        var d :| d in ids && ids[d] == id;
        assert db'.deliveries[id] == FreshRow(db, run, d, at);
      }
    }
  }

  lemma AddedRow(db: Db, db': Db, run: RunId, ids: map<DestId, Id>, at: int, id: Id) returns (d: DestId)
    requires Adds(db, db', run, ids, at) && id in db'.deliveries && id !in db.deliveries
    ensures d in ids && ids[d] == id && OwedAt(db, run, d)
    ensures db'.deliveries[id].data.run == run && db'.deliveries[id].data.destination == d
  {
    d :| d in ids && ids[d] == id;
    assert db'.deliveries[id] == FreshRow(db, run, d, at);
  }

  lemma AddsKeepsUnique(db: Db, db': Db, run: RunId, ids: map<DestId, Id>, at: int, a: Id, b: Id)
    requires Inv(db) && Adds(db, db', run, ids, at) && a in db'.deliveries && b in db'.deliveries
    requires SameRoute(db'.deliveries[a].data, db'.deliveries[b].data)
    ensures a == b
  {
    if a !in db.deliveries {
      var d := AddedRow(db, db', run, ids, at, a);
    }
    if b !in db.deliveries {
      var e := AddedRow(db, db', run, ids, at, b);
    }
  }

  lemma AddsKeepsConserved(db: Db, db': Db, run: RunId, ids: map<DestId, Id>, at: int)
    requires Inv(db) && Adds(db, db', run, ids, at) && db'.runs == db.runs
    requires forall key :: key in db'.routes <==> key in db.routes && key.0 != run
    requires forall key :: key in db'.routes ==> db'.routes[key] == db.routes[key]
    ensures Conserved(db')
  {
    forall a, b
      | a in db'.deliveries && b in db'.deliveries && SameRoute(db'.deliveries[a].data, db'.deliveries[b].data)
      ensures a == b
    {
      AddsKeepsUnique(db, db', run, ids, at, a, b);
    }
    forall id | id in db'.deliveries
      ensures db'.deliveries[id].data.run in db'.runs
              && (db'.deliveries[id].data.run, db'.deliveries[id].data.destination) !in db'.routes
    {
      if id !in db.deliveries {
        var d := AddedRow(db, db', run, ids, at, id);
      }
    }
  }

  /** A finishing run's deliveries join the store and its routes leave it, keeping the invariant. */
  lemma FinishKeepsInv(db: Db, db': Db, run: RunId, ids: map<DestId, Id>, at: int)
    requires Inv(db) && Finishes(db, db', run, ids, at) && at >= db.clock
    ensures Inv(db')
  {
    if run in db.runs && db.runs[run].Terminal() && exists d :: (run, d) in db.routes {
      FinishAdds(db, db', run, ids, at);
      AddsKeepsRows(db, db', run, ids, at);
      AddsKeepsLedgers(db, db', run, ids, at);
      AddsKeepsLeases(db, db', run, ids, at);
      AddsKeepsConserved(db, db', run, ids, at);
    } else {
      TickKeepsInv(db, at);
    }
  }
}
