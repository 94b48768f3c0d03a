/** The delivery tables and the transactions over them (src/delivery_store.rs), step by step. */
module DeliveryStore {
  import opened Prelude
  import opened Deliveries
  import opened DeliveryInvariant
  import opened DeliveryRuns
  import opened DeliveryFields

  // ----------------------------------------------------------- what a claim reads

  // The least due time and the least id among one destination's due rows.
  datatype Group = Group(due: int, id: Id)

  predicate Before(a: Group, b: Group) {
    a.due < b.due || (a.due == b.due && a.id <= b.id)
  }

  ghost predicate Grouped(db: Db, run: Option<RunId>, at: int, ids: set<Id>, groups: map<DestId, Group>) {
    && (forall id :: id in ids && IsDue(db, run, at, id) ==>
          DestOf(db, id) in groups && groups[DestOf(db, id)].due <= db.deliveries[id].due.value
          && groups[DestOf(db, id)].id <= id)
    && forall d :: d in groups ==> exists id :: id in ids && IsDue(db, run, at, id) && DestOf(db, id) == d
                                                && db.deliveries[id].due.value == groups[d].due
  }

  ghost predicate InOrder(groups: map<DestId, Group>, order: seq<DestId>) {
    && NoRepeats(order) && (forall d :: d in order ==> d in groups)
    && forall i, j :: 0 <= i < j < |order| ==> Before(groups[order[i]], groups[order[j]])
  }

  // The destinations with some reservations let go.
  function Passed(destinations: map<DestId, Dest>, skipped: set<DestId>): map<DestId, Dest> {
    map d | d in destinations :: if d in skipped then destinations[d].(claim := None, expires := 0) else destinations[d]
  }

  function Reserved(destinations: map<DestId, Dest>, d: DestId, token: Token, at: int): map<DestId, Dest> {
    if d in destinations
    then destinations[d := destinations[d].(claim := Some(token), expires := at + 30000)]
    else destinations
  }

  function Freed(destinations: map<DestId, Dest>, d: DestId): map<DestId, Dest> {
    if d in destinations then destinations[d := destinations[d].(claim := None, expires := 0)] else destinations
  }

  lemma PassedOneMore(destinations: map<DestId, Dest>, skipped: set<DestId>, d: DestId, token: Token, at: int)
    requires d in destinations
    ensures Freed(Reserved(Passed(destinations, skipped), d, token, at), d) == Passed(destinations, skipped + {d})
  {
  }

  ghost predicate Foremost(db: Db, registry: Registry, run: Option<RunId>, at: int, id: Id)
    requires Claimable(db, registry, run, at, id)
  {
    forall o :: Claimable(db, registry, run, at, o) ==> db.deliveries[id].due.value <= db.deliveries[o].due.value
  }

  method FindSink(registry: Registry, d: DestId) returns (sink: Option<Sink>)
    ensures sink.Some? ==> sink.value in registry && sink.value.id == d && sink.value.enabled
    ensures sink.None? <==> !Enabled(registry, d)
  {
    for i := 0 to |registry|
      invariant forall k :: 0 <= k < i ==> !(registry[k].id == d && registry[k].enabled)
    {
      if registry[i].id == d && registry[i].enabled {
        return Some(registry[i]);
      }
    }
    return None;
  }

  lemma SoleSink(registry: Registry, sink: Sink, d: DestId, protocol: string)
    requires UniqueSinks(registry) && sink in registry && sink.id == d && sink.enabled
    ensures Compatible(registry, d, protocol) <==> sink.protocol == protocol
  {
    var k :| 0 <= k < |registry| && registry[k] == sink;
    if sink.protocol == protocol {
      assert Serves(registry[k], d, protocol);
    }
    if i :| 0 <= i < |registry| && Serves(registry[i], d, protocol) {
      assert i == k;
    }
  }

  method LeastGroup(groups: map<DestId, Group>, rest: set<DestId>) returns (d: DestId)
    requires rest != {} && rest <= groups.Keys
    ensures d in rest && forall e :: e in rest ==> Before(groups[d], groups[e])
  {
    d :| d in rest;
    var unseen := rest - {d};
    while unseen != {}
      invariant d in rest && unseen <= rest
      invariant forall e :: e in rest && e !in unseen ==> Before(groups[d], groups[e])
    {
      var e :| e in unseen;
      if !Before(groups[d], groups[e]) {
        d := e;
      }
      unseen := unseen - {e};
    }
  }

  method OrderGroups(groups: map<DestId, Group>) returns (order: seq<DestId>)
    ensures InOrder(groups, order) && forall d :: d in groups ==> d in order
  {
    order := [];
    var rest := groups.Keys;
    while rest != {}
      invariant rest <= groups.Keys && InOrder(groups, order)
      invariant forall d :: d in groups ==> (d in order <==> d !in rest)
      invariant forall i, e :: 0 <= i < |order| && e in rest ==> Before(groups[order[i]], groups[e])
    {
      var d := LeastGroup(groups, rest);
      order := order + [d];
      rest := rest - {d};
    }
  }

  /** The row a claim of one destination would take. */
  method HeadOf(rows: map<Id, Row>, ghost db: Db, run: Option<RunId>, at: int, d: DestId) returns (head: Option<Id>)
    requires rows == db.deliveries
    ensures head.Some? ==> Head(db, run, at, head.value) && DestOf(db, head.value) == d
    ensures head.None? ==> forall id :: IsDue(db, run, at, id) ==> DestOf(db, id) != d
  {
    head := None;
    var rest := rows.Keys;
    while rest != {}
      invariant rest <= rows.Keys
      invariant head.Some? ==> IsDue(db, run, at, head.value) && DestOf(db, head.value) == d
      invariant forall o :: o !in rest && IsDue(db, run, at, o) && DestOf(db, o) == d ==>
                  head.Some? && Sooner(db, head.value, o)
    {
      var id :| id in rest;
      var row := rows[id];
      if row.data.destination == d && row.state.Pending? && row.due.Some? && row.due.value <= at
         && (run.Some? ==> row.data.run == run.value)
         && (head.None? || row.due.value < rows[head.value].due.value
             || (row.due.value == rows[head.value].due.value && id < head.value)) {
        head := Some(id);
      }
      rest := rest - {id};
    }
  }

  function Lesser(a: Group, due: int, id: Id): Group {
    Group(if due < a.due then due else a.due, if id < a.id then id else a.id)
  }

  method DueGroups(rows: map<Id, Row>, ghost db: Db, run: Option<RunId>, at: int) returns (groups: map<DestId, Group>)
    requires rows == db.deliveries
    ensures Grouped(db, run, at, rows.Keys, groups)
  {
    groups := map[];
    var rest := rows.Keys;
    ghost var done: set<Id> := {};
    while rest != {}
      invariant rest <= rows.Keys && done == rows.Keys - rest
      invariant Grouped(db, run, at, done, groups)
    {
      var id :| id in rest;
      var row := rows[id];
      ghost var before := groups;
      if row.state.Pending? && row.due.Some? && row.due.value <= at && (run.Some? ==> row.data.run == run.value) {
        var d := row.data.destination;
        groups := groups[d := Lesser(if d in groups then groups[d] else Group(row.due.value, id), row.due.value, id)];
      }
      GroupedOneMore(db, run, at, done, id, before, groups);
      rest := rest - {id};
      done := done + {id};
    }
    assert done == rows.Keys;
  }

  method ChooseRoutes(registry: Registry, job: string) returns (chosen: map<DestId, Route>)
    requires UniqueSinks(registry) && forall s :: s in registry ==> s.policy.attempts >= 1
    ensures RoutesFor(registry, job, chosen) && ValidRoutes(chosen)
  {
    chosen := map[];
    for i := 0 to |registry|
      invariant forall d :: d in chosen <==> Routed(registry[..i], job, d)
      invariant forall d :: d in chosen ==> exists k :: 0 <= k < i && registry[k].id == d
      invariant forall k :: 0 <= k < i && registry[k].id in chosen ==>
                  chosen[registry[k].id] == Route(registry[k].statuses, registry[k].policy, registry[k].protocol)
      invariant ValidRoutes(chosen)
    {
      var s := registry[i];
      RoutedOneMore(registry, job, i);
      if s.jobs == {} || job in s.jobs {
        chosen := chosen[s.id := Route(s.statuses, s.policy, s.protocol)];
      }
    }
    assert registry[..|registry|] == registry;
  }

  ghost predicate NothingOn(db: Db, registry: Registry, run: Option<RunId>, at: int, d: DestId) {
    forall id :: id in db.deliveries && DestOf(db, id) == d ==> !Claimable(db, registry, run, at, id)
  }

  lemma NotYet(order: seq<DestId>, i: nat)
    requires NoRepeats(order) && i < |order|
    ensures order[i] !in order[..i]
  {
  }

  lemma Unserved(db: Db, registry: Registry, run: Option<RunId>, at: int, d: DestId)
    requires !Enabled(registry, d)
    ensures NothingOn(db, registry, run, at, d)
  {
  }

  // Heads are unique: of two, each is no later and no younger than the other.
  lemma OneHead(db: Db, run: Option<RunId>, at: int, a: Id, b: Id)
    requires Head(db, run, at, a) && Head(db, run, at, b) && DestOf(db, a) == DestOf(db, b)
    ensures a == b
  {
    assert Sooner(db, a, b) && Sooner(db, b, a);
  }

  lemma HeadDecides(db: Db, registry: Registry, run: Option<RunId>, at: int, d: DestId, sink: Sink, head: Option<Id>,
                    groups: map<DestId, Group>)
    requires UniqueSinks(registry) && sink in registry && sink.id == d && sink.enabled && Ready(db, at, d)
    requires Grouped(db, run, at, db.deliveries.Keys, groups) && d in groups
    requires head.Some? ==> Head(db, run, at, head.value) && DestOf(db, head.value) == d
    requires head.None? ==> forall id :: IsDue(db, run, at, id) ==> DestOf(db, id) != d
    requires head.Some? ==> db.deliveries[head.value].data.protocol != sink.protocol
    ensures NothingOn(db, registry, run, at, d) && Skippable(db, registry, run, at, d)
  {
    var due :| due in db.deliveries.Keys && IsDue(db, run, at, due) && DestOf(db, due) == d
            && db.deliveries[due].due.value == groups[d].due;
    SoleSink(registry, sink, d, db.deliveries[head.value].data.protocol);
    forall id | id in db.deliveries && DestOf(db, id) == d ensures !Claimable(db, registry, run, at, id) {
      if Claimable(db, registry, run, at, id) {
        OneHead(db, run, at, id, head.value);
      }
    }
    assert Enabled(registry, d);
  }

  lemma HeadClaimable(db: Db, registry: Registry, run: Option<RunId>, at: int, d: DestId, sink: Sink, head: Id)
    requires UniqueSinks(registry) && sink in registry && sink.id == d && sink.enabled && Ready(db, at, d)
    requires Head(db, run, at, head) && DestOf(db, head) == d && db.deliveries[head].data.protocol == sink.protocol
    ensures Claimable(db, registry, run, at, head)
  {
    SoleSink(registry, sink, d, sink.protocol);
  }

  lemma ClaimIsSoonest(db: Db, registry: Registry, run: Option<RunId>, at: int, groups: map<DestId, Group>,
                       order: seq<DestId>, i: nat, head: Id)
    requires Grouped(db, run, at, db.deliveries.Keys, groups) && InOrder(groups, order)
    requires forall d :: d in groups ==> d in order
    requires i < |order| && Head(db, run, at, head) && DestOf(db, head) == order[i]
    requires forall k :: 0 <= k < i ==> NothingOn(db, registry, run, at, order[k])
    requires Claimable(db, registry, run, at, head)
    ensures Foremost(db, registry, run, at, head)
  {
    forall o | Claimable(db, registry, run, at, o) ensures db.deliveries[head].due.value <= db.deliveries[o].due.value {
      HeadIsGroupDue(db, run, at, groups, head);
      assert DestOf(db, o) in order;
      var j :| 0 <= j < |order| && order[j] == DestOf(db, o);
      assert j >= i;
      assert j == i || Before(groups[order[i]], groups[order[j]]);
    }
  }

  lemma HeadIsGroupDue(db: Db, run: Option<RunId>, at: int, groups: map<DestId, Group>, head: Id)
    requires Grouped(db, run, at, db.deliveries.Keys, groups) && Head(db, run, at, head)
    ensures DestOf(db, head) in groups && db.deliveries[head].due.value <= groups[DestOf(db, head)].due
  {
    var d := DestOf(db, head);
    assert head in db.deliveries.Keys;
    var due :| due in db.deliveries.Keys && IsDue(db, run, at, due) && DestOf(db, due) == d
            && db.deliveries[due].due.value == groups[d].due;
    assert Sooner(db, head, due);
  }

  lemma PassedTaken(before: map<DestId, Dest>, skipped: set<DestId>, data: Delivery, at: int, token: Token,
                    reserved: map<DestId, Dest>)
    requires data.destination in before && reserved == Reserved(Passed(before, skipped), data.destination, token, at)
    ensures reserved[data.destination := Dest(at + data.policy.spacing, Some(token), LeaseEnd(data.policy, at))]
         == TakenDests(before, skipped, data, at, token)
  {
  }

  lemma NothingClaimable(db: Db, registry: Registry, run: Option<RunId>, at: int, groups: map<DestId, Group>,
                         order: seq<DestId>)
    requires Grouped(db, run, at, db.deliveries.Keys, groups) && forall d :: d in groups ==> d in order
    requires forall k :: 0 <= k < |order| ==> NothingOn(db, registry, run, at, order[k])
    ensures forall id :: !Claimable(db, registry, run, at, id)
  {
    forall id | IsDue(db, run, at, id) ensures !Claimable(db, registry, run, at, id) {
      assert id in db.deliveries.Keys;
      var k :| 0 <= k < |order| && order[k] == DestOf(db, id);
      assert NothingOn(db, registry, run, at, order[k]);
    }
  }

  /** A free destination's head, if its sink can take it. */
  method Offer(rows: map<Id, Row>, ghost db: Db, ghost registry: Registry, run: Option<RunId>, at: int, d: DestId,
               sink: Sink, ghost groups: map<DestId, Group>)
    returns (head: Option<Id>)
    requires rows == db.deliveries && UniqueSinks(registry) && sink in registry && sink.id == d && sink.enabled
    requires Ready(db, at, d)
    requires Grouped(db, run, at, db.deliveries.Keys, groups) && d in groups
    ensures head.Some? ==> Claimable(db, registry, run, at, head.value) && DestOf(db, head.value) == d
    ensures head.None? ==> NothingOn(db, registry, run, at, d) && Skippable(db, registry, run, at, d)
  {
    head := HeadOf(rows, db, run, at, d);
    if head.Some? && rows[head.value].data.protocol == sink.protocol {
      HeadClaimable(db, registry, run, at, d, sink, head.value);
    } else {
      HeadDecides(db, registry, run, at, d, sink, head, groups);
      head := None;
    }
  }

  // How far a claim has looked: nothing to claim on the destinations so far, and what it reserved let go.
  ghost predicate Looked(db: Db, registry: Registry, run: Option<RunId>, at: int, order: seq<DestId>, i: nat,
                         skipped: set<DestId>, reserved: map<DestId, Dest>)
    requires i <= |order|
  {
    && reserved == Passed(db.destinations, skipped)
    && (forall d :: d in skipped ==> d in order[..i] && Skippable(db, registry, run, at, d))
    && forall k :: 0 <= k < i ==> NothingOn(db, registry, run, at, order[k])
  }

  lemma LookedPast(db: Db, registry: Registry, run: Option<RunId>, at: int, order: seq<DestId>, i: nat,
                   skipped: set<DestId>, reserved: map<DestId, Dest>)
    requires i < |order| && Looked(db, registry, run, at, order, i, skipped, reserved)
    requires NothingOn(db, registry, run, at, order[i])
    ensures Looked(db, registry, run, at, order, i + 1, skipped, reserved)
  {
    assert order[..i + 1] == order[..i] + [order[i]];
  }

  lemma LookedAndSkipped(db: Db, registry: Registry, run: Option<RunId>, at: int, order: seq<DestId>, i: nat,
                         skipped: set<DestId>, reserved: map<DestId, Dest>, token: Token)
    requires i < |order| && Looked(db, registry, run, at, order, i, skipped, reserved)
    requires NothingOn(db, registry, run, at, order[i])
    requires Skippable(db, registry, run, at, order[i])
    ensures Looked(db, registry, run, at, order, i + 1, skipped + {order[i]},
                   Freed(Reserved(reserved, order[i], token, at), order[i]))
  {
    assert order[..i + 1] == order[..i] + [order[i]];
    PassedOneMore(db.destinations, skipped, order[i], token, at);
  }

  lemma NotReady(db: Db, registry: Registry, run: Option<RunId>, at: int, d: DestId)
    requires !Ready(db, at, d)
    ensures NothingOn(db, registry, run, at, d)
  {
  }

  /**
   * The destinations with something due, soonest first: the first whose lease
   * and spacing have passed and whose head its sink can take is reserved.
   * Reservations made on the way to it are let go.
   */
  method Choose(registry: Registry, rows: map<Id, Row>, destinations: map<DestId, Dest>, ghost db: Db,
                run: Option<RunId>, at: int, token: Token)
    returns (found: Option<Id>, reserved: map<DestId, Dest>, ghost skipped: set<DestId>)
    requires rows == db.deliveries && destinations == db.destinations && UniqueSinks(registry)
    ensures found.None? ==> forall id :: !Claimable(db, registry, run, at, id)
    ensures found.Some? ==>
              Claimable(db, registry, run, at, found.value) && Foremost(db, registry, run, at, found.value)
    ensures forall d :: d in skipped ==> Skippable(db, registry, run, at, d)
    ensures found.Some? ==> DestOf(db, found.value) !in skipped
                            && reserved == Reserved(Passed(destinations, skipped), DestOf(db, found.value), token, at)
  {
    var groups := DueGroups(rows, db, run, at);
    var order := OrderGroups(groups);
    reserved, skipped := destinations, {};
    for i := 0 to |order|
      invariant Looked(db, registry, run, at, order, i, skipped, reserved)
    {
      var d := order[i];
      NotYet(order, i);
      var sink := FindSink(registry, d);
      if sink.None? {
        Unserved(db, registry, run, at, d);
        LookedPast(db, registry, run, at, order, i, skipped, reserved);
        continue;
      }
      if !(d in reserved && reserved[d].expires <= at && reserved[d].nextAt <= at) {
        NotReady(db, registry, run, at, d);
        LookedPast(db, registry, run, at, order, i, skipped, reserved);
        continue;
      }
      LookedAt(groups, order, i);
      var head := Offer(rows, db, registry, run, at, d, sink.value, groups);
      if head.Some? {
        ClaimIsSoonest(db, registry, run, at, groups, order, i, head.value);
        return head, Reserved(reserved, d, token, at), skipped;
      }
      LookedAndSkipped(db, registry, run, at, order, i, skipped, reserved, token);
      reserved := Freed(Reserved(reserved, d, token, at), d);
      skipped := skipped + {d};
    }
    NothingClaimable(db, registry, run, at, groups, order);
    return None, destinations, skipped;
  }

  lemma LookedAt(groups: map<DestId, Group>, order: seq<DestId>, i: nat)
    requires InOrder(groups, order) && i < |order|
    ensures order[i] in groups
  {
    assert order[i] in order;
  }

  // The rows and destinations after some of a run's routes have been delivered.
  ghost predicate DeliveredSoFar(db: Db, run: RunId, at: int, next: Id, rest: set<DestId>, rows: map<Id, Row>,
                                 dests: map<DestId, Dest>, ids: map<DestId, Id>, used: nat)
    requires run in db.runs
  {
    IdsSoFar(db, run, next, rest, ids, used) && RowsSoFar(db, run, at, rows, ids) && DestsSoFar(db, dests, ids)
  }

  ghost predicate IdsSoFar(db: Db, run: RunId, next: Id, rest: set<DestId>, ids: map<DestId, Id>, used: nat)
    requires run in db.runs
  {
    && ids.Keys == Owes(db, run) - rest
    && (forall d :: d in ids ==> next <= ids[d] < next + used)
    && forall d, e :: d in ids && e in ids && ids[d] == ids[e] ==> d == e
  }

  ghost predicate RowsSoFar(db: Db, run: RunId, at: int, rows: map<Id, Row>, ids: map<DestId, Id>)
    requires run in db.runs
  {
    && rows.Keys == db.deliveries.Keys + ids.Values
    && (forall id :: id in db.deliveries ==> rows[id] == db.deliveries[id])
    && forall d :: d in ids ==> OwedAt(db, run, d) && rows[ids[d]] == FreshRow(db, run, d, at)
  }

  ghost predicate DestsSoFar(db: Db, dests: map<DestId, Dest>, ids: map<DestId, Id>) {
    && dests.Keys == db.destinations.Keys + ids.Keys
    && (forall d :: d in db.destinations ==> dests[d] == db.destinations[d])
    && forall d :: d in ids && d !in db.destinations ==> dests[d] == Dest(0, None, 0)
  }

  lemma NotYetDelivered(db: Db, run: RunId, at: int, next: Id, rest: set<DestId>, rows: map<Id, Row>,
                        dests: map<DestId, Dest>, ids: map<DestId, Id>, used: nat, d: DestId)
    requires Conserved(db) && run in db.runs && DeliveredSoFar(db, run, at, next, rest, rows, dests, ids, used)
    requires d in rest && (run, d) in db.routes && forall id :: id in db.deliveries ==> id < next
    ensures forall id :: id in rows ==> !(rows[id].data.run == run && rows[id].data.destination == d)
    ensures next + used !in rows
  {
    forall id | id in rows ensures !(rows[id].data.run == run && rows[id].data.destination == d) && id != next + used {
      if id !in db.deliveries {
        var e :| e in ids && ids[e] == id;
        assert rows[ids[e]] == FreshRow(db, run, e, at);
      }
    }
  }

  lemma DeliveredOneMore(db: Db, run: RunId, at: int, next: Id, rest: set<DestId>, rows: map<Id, Row>,
                         dests: map<DestId, Dest>, ids: map<DestId, Id>, used: nat, d: DestId)
    requires run in db.runs && DeliveredSoFar(db, run, at, next, rest, rows, dests, ids, used)
    requires d in rest && OwedAt(db, run, d) && next + used !in rows
    ensures DeliveredSoFar(db, run, at, next, rest - {d}, rows[next + used := FreshRow(db, run, d, at)],
                           Enlisted(dests, d),
                           ids[d := next + used], used + 1)
  {
    IdsOneMore(db, run, next, rest, ids, used, d);
    RowsOneMore(db, run, at, rows, ids, d, next + used);
    DestsOneMore(db, dests, ids, d, next + used);
  }

  lemma IdsOneMore(db: Db, run: RunId, next: Id, rest: set<DestId>, ids: map<DestId, Id>, used: nat, d: DestId)
    requires run in db.runs && IdsSoFar(db, run, next, rest, ids, used) && d in rest && OwedAt(db, run, d)
    ensures IdsSoFar(db, run, next, rest - {d}, ids[d := next + used], used + 1)
  {
    OwesAt(db, run, d);
    assert (Owes(db, run) - rest) + {d} == Owes(db, run) - (rest - {d});
  }

  lemma RowsOneMore(db: Db, run: RunId, at: int, rows: map<Id, Row>, ids: map<DestId, Id>, d: DestId, id: Id)
    requires run in db.runs && RowsSoFar(db, run, at, rows, ids) && d !in ids && OwedAt(db, run, d) && id !in rows
    ensures RowsSoFar(db, run, at, rows[id := FreshRow(db, run, d, at)], ids[d := id])
  {
    OneMoreId(ids, d, id);
    forall e | e in ids ensures ids[e] != id {
      assert ids[e] in ids.Values;
    }
  }

  lemma DestsOneMore(db: Db, dests: map<DestId, Dest>, ids: map<DestId, Id>, d: DestId, id: Id)
    requires DestsSoFar(db, dests, ids)
    ensures DestsSoFar(db, Enlisted(dests, d), ids[d := id])
  {
  }

  lemma OneMoreId(ids: map<DestId, Id>, d: DestId, id: Id)
    requires d !in ids
    ensures ids[d := id].Keys == ids.Keys + {d} && ids[d := id].Values == ids.Values + {id}
  {
    var more := ids[d := id];
    assert more[d] in more.Values;
    forall x | x in ids.Values ensures x in more.Values {
      var e :| e in ids && ids[e] == x;
      assert more[e] == x;
    }
  }

  lemma PassedOver(db: Db, run: RunId, at: int, next: Id, rest: set<DestId>, rows: map<Id, Row>,
                   dests: map<DestId, Dest>, ids: map<DestId, Id>, used: nat, d: DestId)
    requires run in db.runs && DeliveredSoFar(db, run, at, next, rest, rows, dests, ids, used) && !OwedAt(db, run, d)
    ensures DeliveredSoFar(db, run, at, next, rest - {d}, rows, dests, ids, used)
  {
    OwesAt(db, run, d);
    assert Owes(db, run) - rest == Owes(db, run) - (rest - {d});
  }

  /** One delivery for each route of a finished run that asked for its status, unless it already has one. */
  method DeliverRoutes(rows0: map<Id, Row>, dests0: map<DestId, Dest>, routes: map<(RunId, DestId), Route>,
                       status: RunStatus, ghost db: Db, run: RunId, at: int, next: Id)
    returns (rows: map<Id, Row>, dests: map<DestId, Dest>, ghost ids: map<DestId, Id>, ghost used: nat)
    requires rows0 == db.deliveries && dests0 == db.destinations && routes == db.routes && run in db.runs
    requires status == db.runs[run]
    requires Conserved(db) && forall id :: id in db.deliveries ==> id < next
    ensures DeliveredSoFar(db, run, at, next, {}, rows, dests, ids, used)
  {
    rows, dests, ids := rows0, dests0, map[];
    var n: nat := 0;
    var rest := set key | key in routes && key.0 == run :: key.1;
    RoutesOf(db, run, rest);
    while rest != {}
      invariant forall d :: d in rest ==> (run, d) in routes
      invariant DeliveredSoFar(db, run, at, next, rest, rows, dests, ids, n)
    {
      var d :| d in rest;
      var route := routes[(run, d)];
      if status in route.statuses {
        NotYetDelivered(db, run, at, next, rest, rows, dests, ids, n, d);
        DeliveredOneMore(db, run, at, next, rest, rows, dests, ids, n, d);
        dests := Enlisted(dests, d);
        if !(exists id :: id in rows && rows[id].data.run == run && rows[id].data.destination == d) {
          rows := rows[next + n := NewDelivery(run, d, route, at)];
          ids := ids[d := next + n];
          n := n + 1;
        }
      } else {
        PassedOver(db, run, at, next, rest, rows, dests, ids, n, d);
      }
      rest := rest - {d};
    }
    used := n;
  }

  lemma RoutesOf(db: Db, run: RunId, rest: set<DestId>)
    requires run in db.runs && rest == set key | key in db.routes && key.0 == run :: key.1
    ensures forall d :: d in rest <==> (run, d) in db.routes
    ensures Owes(db, run) - rest == {}
  {
    forall d | (run, d) in db.routes ensures d in rest {
      assert (run, d).0 == run && (run, d).1 == d;
    }
    forall d | d in Owes(db, run) ensures d in rest {
      OwesAt(db, run, d);
    }
  }

  function OtherRoutes(routes: map<(RunId, DestId), Route>, run: RunId): map<(RunId, DestId), Route> {
    map key | key in routes && key.0 != run :: routes[key]
  }

  lemma FinishedIs(db: Db, run: RunId, at: int, next: Id, rows: map<Id, Row>, dests: map<DestId, Dest>,
                   ids: map<DestId, Id>, used: nat, routes: map<(RunId, DestId), Route>, db': Db)
    requires run in db.runs && db.runs[run].Terminal() && (exists d :: (run, d) in db.routes)
    requires DeliveredSoFar(db, run, at, next, {}, rows, dests, ids, used)
    requires forall id :: id in db.deliveries ==> id < next
    requires routes == OtherRoutes(db.routes, run)
    requires db' == db.(deliveries := rows, destinations := dests, routes := routes, clock := at)
    ensures Finishes(db, db', run, ids, at)
  {
    assert Owes(db, run) - {} == Owes(db, run);
  }

  /** The tables; each method is one transaction, or a loop of them. */
  class Tables {
    var deliveries: map<Id, Row>
    var attempts: map<(Id, nat), Attempt>
    var destinations: map<DestId, Dest>
    var routes: map<(RunId, DestId), Route>
    var runs: map<RunId, RunStatus>
    var clock: int
    ghost var issued: map<Token, Claimed>

    ghost function State(): Db
      reads this
    {
      Db(deliveries, attempts, destinations, routes, runs, clock, issued)
    }

    constructor (at: int)
      ensures Inv(State()) && Starts(State()) && clock == at
    {
      deliveries, attempts, destinations, routes, runs, clock := map[], map[], map[], map[], map[], at;
      issued := map[];
    }

    /** Queue a run: one route for each destination that takes its job. */
    method Snapshot(run: RunId, job: string, registry: Registry, at: int) returns (ghost routed: map<DestId, Route>)
      requires run !in runs && UniqueSinks(registry) && at >= clock
      requires forall s :: s in registry ==> s.policy.attempts >= 1
      modifies this
      ensures RoutesFor(registry, job, routed) && Step(old(State()), Queue(run, routed), at, State())
    {
      var chosen := ChooseRoutes(registry, job);
      routed := chosen;
      runs := runs[run := Queued];
      routes := WithRoutes(routes, run, chosen);
      clock := at;
    }

    /**
     * Claim the head of the first free destination, in the order their work came
     * due: its lease, its spacing, its row and a new attempt, or nothing at all.
     */
    method Claim(registry: Registry, run: Option<RunId>, at: int, token: Token) returns (claimed: Option<Claimed>)
      requires UniqueSinks(registry) && token !in issued && at >= clock
      modifies this
      ensures Step(old(State()), DeliveryRuns.Claim(registry, run, token, claimed), at, State())
    {
      ghost var db := State();
      var found, reserved, skipped := Choose(registry, deliveries, destinations, db, run, at, token);
      clock := at;
      if found.None? {
        return None;
      }
      var id, row := found.value, deliveries[found.value];
      var taken := TakenData(row.data);
      var expires := LeaseEnd(row.data.policy, at);
      destinations := reserved[taken.destination := Dest(at + row.data.policy.spacing, Some(token), expires)];
      deliveries := deliveries[id := Saved(row, taken).(claim := Some(token), expires := Some(expires))];
      attempts := attempts[(id, taken.attempts) := Attempt(row.data.cycle, at, None, Open, None)];
      claimed := Some(Claimed(id, taken, token));
      issued := issued[token := claimed.value];
      PassedTaken(db.destinations, skipped, row.data, at, token, reserved);
      assert State() == Take(db, id, skipped, at, token);
      assert Takes(db, State(), registry, run, at, token, claimed.value, skipped);
    }

    /** Record what the receiver answered, if the claim still holds its fence; otherwise nothing. */
    method Settle(claim: Claimed, answer: Answer, at: int) returns (ok: bool)
      requires at >= clock && claim.token in issued && issued[claim.token] == claim
      requires answer.Nack? && answer.due.Some? ==> answer.due.value >= at
      requires Fenced(State(), claim, at) ==> (claim.id, claim.row.attempts) in attempts
      modifies this
      ensures ok <==> Fenced(old(State()), claim, at)
      ensures Step(old(State()), Answered(claim, answer), at, State())
    {
      clock := at;
      if !(claim.id in deliveries) {
        return false;
      }
      var row := deliveries[claim.id];
      if !(row.claim == Some(claim.token) && row.expires.Some? && row.expires.value > at && row.state.InFlight?) {
        return false;
      }
      var data := claim.row.(generation := claim.row.generation + 1);
      var attempt := attempts[(claim.id, data.attempts)].(finishedAt := Some(at));
      var d := data.destination;
      match answer {
        case Nack(retry, cooldown, due, text) =>
          attempt := attempt.(error := Some(Refusal(text)),
                              outcome := if retry then RetryableFailure else PermanentFailure);
          if cooldown && due.Some? && d in destinations {
            destinations := destinations[d := destinations[d].(nextAt := Max(destinations[d].nextAt, due.value))];
          }
          data := data.(state := if retry && due.None? then Failed
                                 else if retry && data.cycleAttempts < data.policy.attempts then Pending
                                 else Failed,
                        lastError := Some(if due.None? && retry then OutOfRange else Refusal(text)));
          data := data.(nextAttempt := if data.state.Pending? then due else None);
        case Ack =>
          data := data.(state := Delivered, deliveredAt := Some(at), lastError := None);
          attempt := attempt.(outcome := Accepted);
      }
      row := Saved(row, data);
      if data.state.Delivered? {
        row := row.(settled := Some(at));
      }
      deliveries := deliveries[claim.id := row.(claim := None, expires := None)];
      if d in destinations && destinations[d].claim == Some(claim.token) {
        destinations := destinations[d := destinations[d].(claim := None, expires := 0)];
      }
      attempts := attempts[(claim.id, data.attempts) := attempt];
      return true;
    }

    /** Retry an exhausted delivery or dismiss one still owed, at the generation the operator saw. */
    method Control(registry: Registry, id: Id, generation: nat, retry: bool,
                   at: int) returns (r: Result<Delivery, ControlError>)
      requires at >= clock
      modifies this
      ensures Step(old(State()), Order(registry, id, generation, retry), at, State())
      ensures r.Err? <==> Judge(old(State()), registry, id, generation, retry).Some?
      ensures r.Err? ==> Some(r.error) == Judge(old(State()), registry, id, generation, retry)
      ensures r.Ok? ==> id in deliveries && r.value == deliveries[id].data
    {
      clock := at;
      if id !in deliveries {
        return Err(UnknownDelivery);
      }
      var row := deliveries[id];
      var data := row.data;
      if data.generation != generation {
        return Err(Changed);
      }
      if retry {
        if data.state != Failed || !Compatible(registry, data.destination, data.protocol) {
          return Err(NotRetryable);
        }
        data := data.(state := Pending, cycle := data.cycle + 1, cycleAttempts := 0, nextAttempt := Some(at));
      } else {
        if !(data.state.Failed? || data.state.Pending? || data.state.Blocked?) {
          return Err(NotDismissable);
        }
        data := data.(state := Dismissed, nextAttempt := None);
      }
      data := data.(generation := data.generation + 1);
      row := Saved(row, data);
      if data.state.Dismissed? {
        row := row.(settled := Some(at));
      }
      deliveries := deliveries[id := row];
      return Ok(data);
    }

    /** Drop settled rows older than a time, with their attempts, and destinations nothing names any more. */
    method Prune(older: int, at: int) returns (count: nat)
      requires at >= clock
      modifies this
      ensures State() == Deliveries.Prune(old(State()), older, at)
      ensures Pruned(old(State()), older, at, State())
      ensures count == |old(deliveries)| - |deliveries|
    {
      ghost var db := State();
      var gone := set id | id in deliveries && Prunable(deliveries[id], older);
      count := |gone|;
      attempts := WithoutAttempts(attempts, gone);
      KeptRest(deliveries, gone, older);
      deliveries := deliveries - gone;
      destinations := StillUsed(destinations, deliveries, routes);
      clock := at;
      PruneIs(db, older, at, gone, State());
      PruneSays(db, older, at);
    }

    /**
     * Finish a run: in its terminal transaction, or again in a later sweep, its
     * routes become deliveries and are consumed.
     */
    method Finish(run: RunId, at: int, next: Id) returns (ghost ids: map<DestId, Id>)
      requires at >= clock && Conserved(State()) && forall id :: id in deliveries ==> id < next
      modifies this
      ensures Finishes(old(State()), State(), run, ids, at)
    {
      ghost var db := State();
      ids := map[];
      if (forall key :: key in routes ==> key.0 != run) || run !in runs || !runs[run].Terminal() {
        clock := at;
        NothingToFinish(db, run, at);
        return;
      }
      SomeRoute(db, run);
      var rows, dests;
      ghost var used;
      rows, dests, ids, used := DeliverRoutes(deliveries, destinations, routes, runs[run], db, run, at, next);
      deliveries, destinations, routes, clock := rows, dests, OtherRoutes(routes, run), at;
      FinishedIs(db, run, at, next, rows, dests, ids, used, routes, State());
    }

    /** A run's status moves on; reaching a terminal one delivers in the same transaction. */
    method SetStatus(run: RunId, status: RunStatus, at: int, next: Id) returns (ghost ids: map<DestId, Id>)
      requires run in runs && !runs[run].Terminal()
      requires at >= clock && Conserved(State()) && forall id :: id in deliveries ==> id < next
      modifies this
      ensures Step(old(State()), Move(run, status, ids), at, State())
    {
      runs := runs[run := status];
      assert Conserved(State());
      ids := Finish(run, at, next);
    }

    /**
     * Reconcile everything waiting, a page at a time in order of id: each row its
     * own transaction, the clock moving on by some pause before it.
     */
    method Reconcile(registry: Registry, limit: nat, pause: Id -> nat)
      requires Inv(State()) && limit >= 1
      modifies this
      ensures Inv(State()) && FullPass(old(State()), State(), registry) && Qualified(State(), registry)
    {
      ghost var db := State();
      var cursor: Id := 0;
      ghost var left := deliveries.Keys;
      LedNowhere(db, registry);
      while true
        invariant Inv(State()) && PassedTo(db, State(), registry, cursor)
        invariant left == set id | id in db.deliveries.Keys && id >= cursor
        decreases left
      {
        var page := Page(deliveries, cursor, limit);
        if page == [] {
          PassOver(db, State(), registry, cursor, limit);
          break;
        }
        ghost var before := State();
        ReconcilePage(registry, page, cursor, limit, pause);
        PassedFurther(db, before, State(), registry, page, cursor, limit);
        assert page[|page| - 1] in page && page[|page| - 1] in left;
        cursor := page[|page| - 1] + 1;
        left := set id | id in db.deliveries.Keys && id >= cursor;
      }
    }

    method ReconcilePage(registry: Registry, page: seq<Id>, ghost from: Id, ghost limit: nat, pause: Id -> nat)
      requires Inv(State()) && PageOf(deliveries, from, limit, page)
      modifies this
      ensures Inv(State()) && PageDone(old(State()), State(), registry, page, |page|)
    {
      ghost var db := State();
      LedNowhere(db, registry);
      for k := 0 to |page|
        invariant Inv(State()) && PageDone(db, State(), registry, page, k)
      {
        ghost var before := State();
        NextOfPage(db, before, registry, page, k, from, limit);
        VisitRow(registry, page[k], clock + pause(page[k]));
        PageOneMore(db, before, State(), registry, page, k);
      }
    }

    // One row of a page: nothing to do about it, or its own transaction.
    method VisitRow(registry: Registry, id: Id, at: int)
      requires Inv(State()) && id in deliveries && at >= clock && Waiting(deliveries[id])
      modifies this
      ensures Inv(State()) && RowVisited(old(State()), State(), registry, id)
    {
      ghost var db := State();
      if Idle(registry, deliveries[id]) {
        IdleReckons(db, registry, id);
        return;
      }
      if deliveries[id].data.state.InFlight? {
        AttemptHeld(db, id);
      }
      ReconcileRow(registry, id, at);
      VisitIsMade(db, registry, id, at, State());
    }

    /** One row's reconciliation: nothing while its lease runs; else what the registry and the clock now say of it. */
    method ReconcileRow(registry: Registry, id: Id, at: int)
      requires at >= clock
      requires id in deliveries && deliveries[id].data.state.InFlight? ==>
                 (id, deliveries[id].data.attempts) in attempts
      modifies this
      ensures Visits(old(State()), registry, id, at, State())
    {
      clock := at;
      if id !in deliveries {
        return;
      }
      var row := deliveries[id];
      var d := row.data.destination;
      if row.data.state.InFlight? && row.expires.Some? && row.expires.value > at {
        return;
      }
      if d !in destinations {
        destinations := destinations[d := Dest(0, None, 0)];
      }
      if row.data.state.InFlight? {
        var key := (id, row.data.attempts);
        attempts := attempts[key := attempts[key].(finishedAt := Some(at), outcome := Unknown,
                                                   error := Some(LeaseExpired))];
        if row.claim.Some? && destinations[d].claim == row.claim {
          destinations := destinations[d := destinations[d].(claim := None, expires := 0)];
        }
      }
      var now := Reckon(registry, row, at);
      deliveries := deliveries[id := now];
    }
  }

  /** The row a reconciliation writes back. */
  method Reckon(registry: Registry, row0: Row, at: int) returns (row: Row)
    ensures row == ReconciledRow(registry, row0, at)
  {
    row := row0;
    var data := row.data;
    if data.state.InFlight? {
      data := data.(state := if data.cycleAttempts >= data.policy.attempts then Failed else Pending,
                    lastError := Some(LeaseExpired));
      data := data.(nextAttempt := if data.state.Pending? then Some(at) else None, generation := data.generation + 1);
      row := row.(claim := None, expires := None);
    }
    if Owed(data.state) {
      var compatible := Compatible(registry, data.destination, data.protocol);
      if !compatible && !data.state.Blocked? {
        data := data.(state := Blocked, lastError := Some(Incompatible), generation := data.generation + 1);
      } else if compatible && data.state.Blocked? && data.lastError == Some(Incompatible) {
        data := data.(state := Pending, nextAttempt := Some(at), lastError := None, generation := data.generation + 1);
      }
    }
    if data.generation != row0.data.generation {
      row := Saved(row, data);
    }
  }

  lemma AttemptHeld(db: Db, id: Id)
    requires Inv(db) && id in db.deliveries && db.deliveries[id].data.state.InFlight?
    ensures (id, db.deliveries[id].data.attempts) in db.attempts
  {
    assert RowOk(db.deliveries[id]) && Ledger(id, db.deliveries[id].data, db.attempts);
  }

  // What a visit finds to do nothing about.
  predicate Idle(registry: Registry, row: Row) {
    var compatible := Compatible(registry, row.data.destination, row.data.protocol);
    (row.data.state.Pending? && compatible) || (row.data.state.Blocked? && !compatible)
  }

  predicate Waiting(row: Row) {
    row.state.Pending? || row.state.Blocked? || row.state.InFlight?
  }

  // A row as some visit left it, the other rows as they were.
  ghost predicate RowVisited(db: Db, db': Db, registry: Registry, id: Id) {
    && id in db.deliveries && db'.clock >= db.clock && OthersSame(db, db', id) && Led(db, registry, db')
    && Reckoned(registry, db'.deliveries[id], db.clock)
    && VisitedBetween(registry, db.deliveries[id], db'.deliveries[id], db.clock, db'.clock)
  }

  lemma IdleReckons(db: Db, registry: Registry, id: Id)
    requires Inv(db) && id in db.deliveries && Idle(registry, db.deliveries[id])
    ensures RowVisited(db, db, registry, id)
  {
    var row := db.deliveries[id];
    assert RowOk(row);
    LedNowhere(db, registry);
    CompatibleSays(registry, row.data.destination, row.data.protocol);
    RestsAsVisited(registry, row, db.clock, db.clock);
  }

  lemma VisitIsMade(db: Db, registry: Registry, id: Id, at: int, db': Db)
    requires Inv(db) && id in db.deliveries && at >= db.clock && Visits(db, registry, id, at, db')
    ensures Inv(db') && RowVisited(db, db', registry, id)
  {
    VisitIsStep(db, registry, id, at, db');
    VisitReckons(db, registry, id, at, db');
    VisitIsBetween(db, registry, id, at, db');
  }

  lemma VisitIsStep(db: Db, registry: Registry, id: Id, at: int, db': Db)
    requires Inv(db) && at >= db.clock && Visits(db, registry, id, at, db')
    ensures Inv(db') && Led(db, registry, db')
  {
    assert Step(db, Visit(registry, id), at, db');
    StepKeepsInv(db, Visit(registry, id), at, db');
    LedByOne(db, registry, db');
  }

  // A page's rows up to the k-th visited, and no other row touched.
  ghost predicate PageDone(db: Db, db': Db, registry: Registry, page: seq<Id>, k: nat)
    requires k <= |page|
  {
    && db'.clock >= db.clock && db'.deliveries.Keys == db.deliveries.Keys && Led(db, registry, db')
    && (forall id :: id in db.deliveries && id !in page[..k] ==> db'.deliveries[id] == db.deliveries[id])
    && forall id :: id in page[..k] ==> RowDone(db, db', registry, id)
  }

  ghost predicate RowDone(db: Db, db': Db, registry: Registry, id: Id) {
    && id in db.deliveries && id in db'.deliveries && Reckoned(registry, db'.deliveries[id], db.clock)
    && VisitedBetween(registry, db.deliveries[id], db'.deliveries[id], db.clock, db'.clock)
  }

  lemma NextOfPage(db: Db, db': Db, registry: Registry, page: seq<Id>, k: nat, from: Id, limit: nat)
    requires k < |page| && PageDone(db, db', registry, page, k) && PageOf(db.deliveries, from, limit, page)
    ensures page[k] in db'.deliveries && Waiting(db'.deliveries[page[k]])
    ensures page[k] !in page[..k]
  {
    assert page[k] in page && page[k] !in page[..k];
  }

  lemma PageOneMore(db: Db, before: Db, after: Db, registry: Registry, page: seq<Id>, k: nat)
    requires k < |page| && PageDone(db, before, registry, page, k) && page[k] !in page[..k]
    requires RowVisited(before, after, registry, page[k])
    ensures PageDone(db, after, registry, page, k + 1)
  {
    assert page[..k + 1] == page[..k] + [page[k]];
    LedThrough(db, registry, before, after);
    forall id | id in page[..k + 1] ensures RowDone(db, after, registry, id) {
      DoneFurther(db, before, after, registry, id);
    }
  }

  // Every row up to an id as a visit left it, the rest as they were.
  ghost predicate PassedTo(db: Db, db': Db, registry: Registry, to: Id) {
    && db'.clock >= db.clock && db'.deliveries.Keys == db.deliveries.Keys && Led(db, registry, db')
    && (forall id :: id in db.deliveries && id >= to ==> db'.deliveries[id] == db.deliveries[id])
    && forall id :: id in db.deliveries && id < to ==> RowDone(db, db', registry, id)
  }

  /** A whole pass: visits only, and every row as one of them left it. */
  ghost predicate FullPass(db: Db, db': Db, registry: Registry) {
    && db'.clock >= db.clock && db'.deliveries.Keys == db.deliveries.Keys && Led(db, registry, db')
    && forall id :: id in db.deliveries ==> RowDone(db, db', registry, id)
  }

  lemma RestDone(db: Db, db': Db, registry: Registry, id: Id)
    requires Rows(db) && id in db.deliveries && !Waiting(db.deliveries[id]) && db'.clock >= db.clock
    requires id in db'.deliveries && db'.deliveries[id] == db.deliveries[id]
    ensures RowDone(db, db', registry, id)
  {
    assert RowOk(db.deliveries[id]);
    RestsAsVisited(registry, db.deliveries[id], db.clock, db'.clock);
  }

  lemma DoneFurther(db: Db, before: Db, after: Db, registry: Registry, id: Id)
    requires db.clock <= before.clock <= after.clock
    requires id in db.deliveries && id in before.deliveries && id in after.deliveries
    requires
      || (RowDone(db, before, registry, id) && after.deliveries[id] == before.deliveries[id])
      || (RowDone(before, after, registry, id) && id in db.deliveries && before.deliveries[id] == db.deliveries[id])
    ensures RowDone(db, after, registry, id)
  {
    var was, now := db.deliveries[id], after.deliveries[id];
    if RowDone(db, before, registry, id) && now == before.deliveries[id] {
      VisitedWithin(registry, was, now, db.clock, before.clock, db.clock, after.clock);
    } else {
      VisitedWithin(registry, was, now, before.clock, after.clock, db.clock, after.clock);
    }
  }

  lemma RowPassed(db: Db, before: Db, after: Db, registry: Registry, page: seq<Id>, from: Id, limit: nat, id: Id)
    requires Rows(db) && PassedTo(db, before, registry, from) && page != []
    requires PageOf(before.deliveries, from, limit, page) && PageDone(before, after, registry, page, |page|)
    requires id in db.deliveries && id <= page[|page| - 1]
    ensures RowDone(db, after, registry, id)
  {
    assert page[..|page|] == page;
    LastOfPage(before.deliveries, page, from, limit);
    if id in page || id < from {
      DoneFurther(db, before, after, registry, id);
    } else {
      RestDone(db, after, registry, id);
    }
  }

  lemma PassedFurther(db: Db, before: Db, after: Db, registry: Registry, page: seq<Id>, from: Id, limit: nat)
    requires Rows(db) && PassedTo(db, before, registry, from) && page != []
    requires PageOf(before.deliveries, from, limit, page) && PageDone(before, after, registry, page, |page|)
    ensures PassedTo(db, after, registry, page[|page| - 1] + 1)
  {
    LedThrough(db, registry, before, after);
    forall id | id in db.deliveries && id < page[|page| - 1] + 1 ensures RowDone(db, after, registry, id) {
      RowPassed(db, before, after, registry, page, from, limit, id);
    }
    RestUntouched(db, before, after, registry, page, from, limit);
  }

  lemma RestUntouched(db: Db, before: Db, after: Db, registry: Registry, page: seq<Id>, from: Id, limit: nat)
    requires PassedTo(db, before, registry, from) && page != []
    requires PageOf(before.deliveries, from, limit, page) && PageDone(before, after, registry, page, |page|)
    ensures forall id :: id in db.deliveries && id >= page[|page| - 1] + 1 ==> after.deliveries[id] == db.deliveries[id]
  {
    assert page[..|page|] == page;
    LastOfPage(before.deliveries, page, from, limit);
    assert page[|page| - 1] in page;
  }

  lemma LastOfPage(rows: map<Id, Row>, page: seq<Id>, from: Id, limit: nat)
    requires PageOf(rows, from, limit, page) && page != []
    ensures forall id :: id in page ==> from <= id <= page[|page| - 1]
    ensures forall id :: id in rows && from <= id <= page[|page| - 1] && id !in page ==> !Waiting(rows[id])
  {
    assert page[|page| - 1] in page;
  }

  /** When no row past the cursor waits, the whole pass is made. */
  lemma PassOver(db: Db, db': Db, registry: Registry, cursor: Id, limit: nat)
    requires Rows(db) && PassedTo(db, db', registry, cursor)
    requires PageOf(db'.deliveries, cursor, limit, []) && limit >= 1
    ensures FullPass(db, db', registry) && Qualified(db', registry)
  {
    forall id | id in db.deliveries ensures RowDone(db, db', registry, id) {
      if id >= cursor {
        RestDone(db, db', registry, id);
      }
    }
  }

  ghost predicate Rising(page: seq<Id>) {
    forall i, j :: 0 <= i < j < |page| ==> page[i] < page[j]
  }

  /** The next waiting rows past a cursor, in order, at most so many. */
  ghost predicate PageOf(rows: map<Id, Row>, from: Id, limit: nat, page: seq<Id>) {
    && Rising(page) && |page| <= limit
    && (forall id :: id in page ==> id in rows && id >= from && Waiting(rows[id]))
    && forall id :: id in rows && id >= from && Waiting(rows[id]) && id !in page ==>
         |page| == limit && forall p :: p in page ==> p < id
  }

  method LeastWaiting(rows: map<Id, Row>, from: Id) returns (least: Option<Id>)
    ensures least.None? ==> forall id :: id in rows && id >= from ==> !Waiting(rows[id])
    ensures least.Some? ==> least.value in rows && least.value >= from && Waiting(rows[least.value])
                            && forall id :: id in rows && id >= from && Waiting(rows[id]) ==> least.value <= id
  {
    least := None;
    var rest := rows.Keys;
    while rest != {}
      invariant rest <= rows.Keys
      invariant least.Some? ==> least.value in rows && least.value >= from && Waiting(rows[least.value])
      invariant forall id :: id in rows && id !in rest && id >= from && Waiting(rows[id]) ==>
                  least.Some? && least.value <= id
    {
      var id :| id in rest;
      if id >= from && Waiting(rows[id]) && (least.None? || id < least.value) {
        least := Some(id);
      }
      rest := rest - {id};
    }
  }

  method Page(rows: map<Id, Row>, from: Id, limit: nat) returns (page: seq<Id>)
    ensures PageOf(rows, from, limit, page)
  {
    page := [];
    var after := from;
    while |page| < limit
      invariant Rising(page) && |page| <= limit && after >= from && forall i :: 0 <= i < |page| ==> page[i] < after
      invariant forall id :: id in page ==> id in rows && from <= id < after && Waiting(rows[id])
      invariant forall id :: id in rows && from <= id < after && Waiting(rows[id]) ==> id in page
    {
      var next := LeastWaiting(rows, after);
      if next.None? {
        return;
      }
      page := page + [next.value];
      after := next.value + 1;
    }
  }

  lemma NothingToFinish(db: Db, run: RunId, at: int)
    requires (forall key :: key in db.routes ==> key.0 != run) || run !in db.runs || !db.runs[run].Terminal()
    ensures Finishes(db, db.(clock := at), run, map[], at)
  {
    if forall key :: key in db.routes ==> key.0 != run {
      forall d ensures (run, d) !in db.routes {
        assert (run, d).0 == run;
      }
    }
  }

  lemma SomeRoute(db: Db, run: RunId)
    requires exists key :: key in db.routes && key.0 == run
    ensures exists d :: (run, d) in db.routes
  {
    var key :| key in db.routes && key.0 == run;
    assert (run, key.1) in db.routes;
  }

  // What keeps a destination's row: a delivery or a route that names it.
  predicate Named(rows: map<Id, Row>, routes: map<(RunId, DestId), Route>, d: DestId) {
    || (exists id :: id in rows && rows[id].data.destination == d)
    || exists key :: key in routes && key.1 == d
  }

  lemma KeptRest(rows: map<Id, Row>, gone: set<Id>, older: int)
    requires gone == set id | id in rows && Prunable(rows[id], older)
    ensures rows - gone == KeptDeliveries(rows, older) && |gone| == |rows| - |rows - gone|
  {
    assert (rows - gone).Keys == rows.Keys - gone;
    assert |rows.Keys| == |rows| && |(rows - gone).Keys| == |rows - gone|;
  }

  function WithoutAttempts(attempts: map<(Id, nat), Attempt>, gone: set<Id>): map<(Id, nat), Attempt> {
    map key | key in attempts && key.0 !in gone :: attempts[key]
  }

  function StillUsed(destinations: map<DestId, Dest>, rows: map<Id, Row>,
                     routes: map<(RunId, DestId), Route>): map<DestId, Dest> {
    map d | d in destinations && (destinations[d].claim.Some? || Named(rows, routes, d)) :: destinations[d]
  }

  lemma PruneIs(db: Db, older: int, at: int, gone: set<Id>, db': Db)
    requires gone == set id | id in db.deliveries && Prunable(db.deliveries[id], older)
    requires db'.deliveries == KeptDeliveries(db.deliveries, older)
    requires db'.attempts == WithoutAttempts(db.attempts, gone)
    requires db'.destinations == StillUsed(db.destinations, db'.deliveries, db.routes)
    requires db'.routes == db.routes && db'.runs == db.runs && db'.issued == db.issued && db'.clock == at
    ensures db' == Deliveries.Prune(db, older, at)
  {
    var kept := db.(deliveries := KeptDeliveries(db.deliveries, older));
    forall d ensures InUse(kept, d) <==> Named(db'.deliveries, db.routes, d) {
    }
    assert db'.destinations == Deliveries.Prune(db, older, at).destinations;
    assert db'.attempts == Deliveries.Prune(db, older, at).attempts;
  }

  lemma RoutedOneMore(registry: Registry, job: string, i: nat)
    requires i < |registry|
    ensures forall d :: Routed(registry[..i + 1], job, d) <==>
                        Routed(registry[..i], job, d)
                        || (registry[i].id == d && (registry[i].jobs == {} || job in registry[i].jobs))
  {
    var more, less := registry[..i + 1], registry[..i];
    forall d ensures Routed(more, job, d) <==>
        Routed(less, job, d) || (registry[i].id == d && (registry[i].jobs == {} || job in registry[i].jobs))
    {
      if Routed(less, job, d) {
        var k :| 0 <= k < |less| && less[k].id == d && (less[k].jobs == {} || job in less[k].jobs);
        assert more[k] == less[k];
      }
      if Routed(more, job, d) {
        var k :| 0 <= k < |more| && more[k].id == d && (more[k].jobs == {} || job in more[k].jobs);
        if k < i {
          assert less[k] == more[k];
        }
      }
      assert more[i] == registry[i];
    }
  }

  lemma GroupedOneMore(db: Db, run: Option<RunId>, at: int, ids: set<Id>, id: Id, before: map<DestId, Group>,
                       after: map<DestId, Group>)
    requires Grouped(db, run, at, ids, before) && id in db.deliveries && id !in ids
    requires if IsDue(db, run, at, id) then
               var row := db.deliveries[id];
               var d := row.data.destination;
               var was := if d in before then before[d] else Group(row.due.value, id);
               after == before[d := Lesser(was, row.due.value, id)]
             else after == before
    ensures Grouped(db, run, at, ids + {id}, after)
  {
    forall d | d in after
      ensures exists o :: o in ids + {id} && IsDue(db, run, at, o) && DestOf(db, o) == d
                          && db.deliveries[o].due.value == after[d].due
    {
      if d in before && after[d].due == before[d].due {
        var o :| o in ids && IsDue(db, run, at, o) && DestOf(db, o) == d && db.deliveries[o].due.value == before[d].due;
        assert o in ids + {id};
      } else {
        assert id in ids + {id};
      }
    }
  }
}
