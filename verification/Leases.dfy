/**
 * The deciding lease as one process sees it (src/decider.rs, src/store.rs): the
 * row it shares with the others, the calls it makes to take and renew it, and
 * how long what it believes can outlast what the row says.
 */
module Leases {
  import opened Prelude

  type Proc = string

  const LEASE: int := 10000

  /** The row: the term last taken, who holds it, and until when. */
  datatype Lease = Lease(term: nat, holder: Option<Proc>, until: Option<int>)

  predicate Free(l: Lease, who: Proc, at: int) {
    l.holder.None? || l.holder == Some(who) || l.until.None? || l.until.value < at
  }

  predicate Holds(l: Lease, who: Proc, term: nat, at: int) {
    l.holder == Some(who) && l.term == term && l.until.Some? && l.until.value >= at
  }

  function Taken(l: Lease, who: Proc, at: int): Lease {
    Lease(l.term + 1, Some(who), Some(at + LEASE))
  }

  // What each statement leaves of the row, whether or not it matched.
  function AfterTake(l: Lease, who: Proc, at: int): Lease {
    if Free(l, who, at) then Taken(l, who, at) else l
  }

  function AfterRenew(l: Lease, who: Proc, term: nat, at: int): Lease {
    if Holds(l, who, term, at) then l.(until := Some(at + LEASE)) else l
  }

  function AfterRelease(l: Lease, who: Proc, term: nat): Lease {
    if l.holder == Some(who) && l.term == term then Lease(l.term, None, None) else l
  }

  /** How a call to the store ended for the caller: answered, or an error after it was or was not applied. */
  datatype Reply = Answered | Failed(applied: bool)

  // ----------------------------------------------------------- one process and the row

  /**
   * A call on its way: the term it renews, zero for a take, when it was made,
   * whether it was applied, and the term it moved the row under.
   */
  datatype Call = Call(held: nat, at: int, applied: bool, granted: Option<nat>)

  /**
   * The row, the term the process believes it holds and the time it counts a
   * lease from, the call it waits for, and whether its loop has begun; with them
   * the time of the last event, of the last reply or of the loop's beginning,
   * when the call last confirmed was made, and when the row was last moved for
   * the term.
   */
  datatype Watch = Watch(who: Proc, lease: Lease, term: nat, renewed: int, call: Option<Call>, begun: bool,
                         clock: int, heard: int, asked: int, backed: int)

  // Every event at its time; between a call and its reply the others may do
  // anything. A take at start-up comes before the loop, which renews and counts
  // its first lease from its own beginning.
  datatype Event =
    | Ask(at: int, applied: bool)
    | Hear(at: int, answered: bool)
    | Begin(at: int)
    | Leave(at: int, applied: bool)
    | OtherTakes(at: int, other: Proc)
    | OtherRenews(at: int, other: Proc, term: nat)
    | OtherReleases(at: int, other: Proc, term: nat)

  predicate Enabled(w: Watch, e: Event) {
    && w.clock <= e.at
    && match e
       case Ask(_, _) => w.call.None? && (w.begun || w.term == 0)
       case Hear(_, answered) => w.call.Some? && (answered ==> w.call.value.applied)
       case Begin(_) => w.call.None? && !w.begun
       case Leave(_, _) => true
       case OtherTakes(_, other) => other != w.who
       case OtherRenews(_, other, _) => other != w.who
       case OtherReleases(_, other, _) => other != w.who
  }

  function Asked(w: Watch, at: int, applied: bool): Watch {
    if w.term == 0 then
      var granted := if applied && Free(w.lease, w.who, at) then Some(w.lease.term + 1) else None;
      w.(lease := if applied then AfterTake(w.lease, w.who, at) else w.lease,
         call := Some(Call(0, at, applied, granted)), clock := at)
    else
      var granted := if applied && Holds(w.lease, w.who, w.term, at) then Some(w.term) else None;
      w.(lease := if applied then AfterRenew(w.lease, w.who, w.term, at) else w.lease,
         call := Some(Call(w.term, at, applied, granted)), clock := at,
         backed := if granted.Some? then at else w.backed)
  }

  // A renewal that errs ends the term once nothing has been confirmed for a whole lease.
  function Told(w: Watch, at: int, answered: bool): Watch
    requires w.call.Some?
  {
    var c, now := w.call.value, w.(call := None, clock := at, heard := at);
    if answered && c.granted.Some? then
      if c.held == 0 then now.(term := c.granted.value, renewed := at, asked := c.at, backed := c.at)
      else now.(renewed := at, asked := c.at)
    else if c.held != 0 && (answered || at - w.renewed >= LEASE) then now.(term := 0)
    else now
  }

  function Step(w: Watch, e: Event): Watch
    requires Enabled(w, e)
  {
    match e
    case Ask(at, applied) => Asked(w, at, applied)
    case Hear(at, answered) => Told(w, at, answered)
    case Begin(at) => w.(begun := true, renewed := at, heard := at, clock := at)
    case Leave(at, applied) =>
      w.(term := 0, clock := at,
         lease := if applied && w.term != 0 then AfterRelease(w.lease, w.who, w.term) else w.lease)
    case OtherTakes(at, other) => w.(lease := AfterTake(w.lease, other, at), clock := at)
    case OtherRenews(at, other, term) => w.(lease := AfterRenew(w.lease, other, term, at), clock := at)
    case OtherReleases(at, other, term) => w.(lease := AfterRelease(w.lease, other, term), clock := at)
  }

  /** A whole turn of the loop with nothing in between: the call, and its reply. */
  function Turned(w: Watch, at: int, heard: int, reply: Reply): Watch {
    Told(Asked(w, at, reply.Answered? || reply.applied), heard, reply.Answered?)
  }

  function Idle(who: Proc, lease: Lease, term: nat, renewed: int): Watch {
    Watch(who, lease, term, renewed, None, true, renewed, renewed, renewed, renewed)
  }

  // ----------------------------------------------------------- what every event keeps

  // The row still runs to a lease past `since`, or another has taken it after that.
  ghost predicate Stands(w: Watch, term: nat, since: int) {
    && w.lease.term >= term && since <= w.clock
    && (w.lease.term == term ==> w.lease.holder == Some(w.who) && w.lease.until == Some(since + LEASE))
    && (w.lease.term > term ==> w.clock > since + LEASE)
  }

  ghost predicate Sure(w: Watch) {
    w.term != 0 ==>
      && Stands(w, w.term, w.backed) && w.asked <= w.backed
      && w.asked <= w.renewed <= w.heard <= w.clock && w.heard < w.renewed + LEASE
  }

  ghost predicate Waiting(w: Watch) {
    w.call.Some? ==>
      var c := w.call.value;
      && c.at <= w.clock
      && (c.held != 0 && w.term != 0 ==> c.held == w.term && (c.granted.Some? ==> w.backed == c.at))
      && (c.held == 0 ==> w.term == 0 && (c.granted.Some? ==> c.granted.value != 0 && Stands(w, c.granted.value, c.at)))
  }

  ghost predicate Inv(w: Watch) {
    Sure(w) && Waiting(w)
  }

  lemma StepKeepsInv(w: Watch, e: Event)
    requires Inv(w) && Enabled(w, e)
    ensures Inv(Step(w, e)) && Step(w, e).who == w.who
  {
  }

  /** Before the next event, the row is behind a belief exactly until one lease after it was last moved for it. */
  lemma BackedUntil(w: Watch, t: int)
    requires Inv(w) && w.term != 0 && w.clock <= t
    ensures Holds(w.lease, w.who, w.term, t) <==> t <= w.backed + LEASE
  {
  }

  // ----------------------------------------------------------- over a run

  // The process starts believing nothing; what the row says then is anything at all.
  ghost predicate Behaves(states: seq<Watch>, events: seq<Event>) {
    && |states| == |events| + 1 && states[0].term == 0 && states[0].call.None? && !states[0].begun
    && forall k :: 0 <= k < |events| ==> Enabled(states[k], events[k]) && states[k + 1] == Step(states[k], events[k])
  }

  lemma {:induction false} InvThroughout(states: seq<Watch>, events: seq<Event>, k: nat)
    requires Behaves(states, events) && k < |states|
    ensures Inv(states[k]) && states[k].who == states[0].who
  {
    if k > 0 {
      InvThroughout(states, events, k - 1);
      StepKeepsInv(states[k - 1], events[k - 1]);
    }
  }

  /** A reply that tells the process it holds a term. */
  ghost predicate Confirms(w: Watch, e: Event)
    requires Enabled(w, e)
  {
    e.Hear? && e.answered && w.call.value.granted.Some? && Step(w, e).term != 0
  }

  /** A refusal, an error a whole lease after `from`, or leaving. */
  ghost predicate EndsBelief(e: Event, from: int) {
    e.Leave? || (e.Hear? && (e.answered || e.at >= from + LEASE))
  }

  /** When a lease is counted from after a confirmation heard at `i`: then, or when the loop has begun since. */
  ghost function CountedFrom(events: seq<Event>, i: nat, k: nat): int
    requires i < k <= |events|
  {
    if k == i + 1 then events[i].at
    else if events[k - 1].Begin? then events[k - 1].at
    else CountedFrom(events, i, k - 1)
  }

  // The reply at `i` confirms, and none before `k` does again.
  ghost predicate LastConfirmed(states: seq<Watch>, events: seq<Event>, i: nat, k: nat) {
    && Behaves(states, events) && i < k < |states| && Confirms(states[i], events[i])
    && forall j :: i < j < k ==> !Confirms(states[j], events[j])
  }

  ghost predicate NoneEnds(events: seq<Event>, i: nat, k: nat)
    requires i < k <= |events|
  {
    forall j :: i < j < k ==> !EndsBelief(events[j], CountedFrom(events, i, j))
  }

  ghost predicate StillCounted(states: seq<Watch>, events: seq<Event>, i: nat, k: nat)
    requires i < k <= |events| && |states| == |events| + 1
  {
    states[k].term != 0 ==>
      && states[k].renewed == CountedFrom(events, i, k)
      && states[i].call.Some? && states[k].asked == states[i].call.value.at
  }

  // One event that confirms nothing.
  lemma UnconfirmedEvent(w: Watch, e: Event, from: int)
    requires Inv(w) && Enabled(w, e) && !Confirms(w, e) && (w.term != 0 ==> w.renewed == from)
    ensures Step(w, e).term == if EndsBelief(e, from) then 0 else w.term
    ensures Step(w, e).term != 0 ==>
              Step(w, e).renewed == (if e.Begin? then e.at else from) && Step(w, e).asked == w.asked
  {
  }

  lemma ConfirmingEvent(w: Watch, e: Event)
    requires Enabled(w, e) && Confirms(w, e)
    ensures Step(w, e).renewed == e.at && w.call.Some? && Step(w, e).asked == w.call.value.at
  {
  }

  ghost predicate BelievedAt(states: seq<Watch>, events: seq<Event>, i: nat, k: nat)
    requires i < k <= |events| && |states| == |events| + 1
  {
    states[k].term == (if NoneEnds(events, i, k) then states[i + 1].term else 0) && StillCounted(states, events, i, k)
  }

  lemma BelievedOneMore(states: seq<Watch>, events: seq<Event>, i: nat, k: nat)
    requires i + 1 < k <= |events| && |states| == |events| + 1 && BelievedAt(states, events, i, k - 1)
    requires Inv(states[k - 1])
    requires Enabled(states[k - 1], events[k - 1]) && states[k] == Step(states[k - 1], events[k - 1])
    requires !Confirms(states[k - 1], events[k - 1])
    ensures BelievedAt(states, events, i, k)
  {
    UnconfirmedEvent(states[k - 1], events[k - 1], CountedFrom(events, i, k - 1));
    NoneEndsOneMore(events, i, k);
  }

  // An event of a run that confirms nothing.
  ghost predicate Plain(states: seq<Watch>, events: seq<Event>, j: nat)
    requires j < |events| && |states| == |events| + 1
  {
    && Inv(states[j]) && Enabled(states[j], events[j]) && states[j + 1] == Step(states[j], events[j])
    && !Confirms(states[j], events[j])
  }

  lemma {:induction false} BelievedOver(states: seq<Watch>, events: seq<Event>, i: nat, k: nat)
    requires i < k <= |events| && |states| == |events| + 1 && BelievedAt(states, events, i, i + 1)
    requires forall j :: i < j < k ==> Plain(states, events, j)
    ensures BelievedAt(states, events, i, k)
    decreases k
  {
    if i + 1 < k {
      BelievedOver(states, events, i, k - 1);
      assert Plain(states, events, k - 1);
      BelievedOneMore(states, events, i, k);
    }
  }

  lemma BelievedSince(states: seq<Watch>, events: seq<Event>, i: nat, k: nat)
    requires LastConfirmed(states, events, i, k)
    ensures BelievedAt(states, events, i, k)
  {
    StepAt(states, events, i);
    ConfirmingEvent(states[i], events[i]);
    FirstBelieved(states, events, i);
    forall j | i < j < k ensures Plain(states, events, j) {
      InvThroughout(states, events, j);
      StepAt(states, events, j);
    }
    BelievedOver(states, events, i, k);
  }

  lemma FirstBelieved(states: seq<Watch>, events: seq<Event>, i: nat)
    requires i < |events| && |states| == |events| + 1 && states[i].call.Some?
    requires states[i + 1].renewed == events[i].at && states[i + 1].asked == states[i].call.value.at
    ensures BelievedAt(states, events, i, i + 1)
  {
  }

  lemma StepAt(states: seq<Watch>, events: seq<Event>, k: nat)
    requires Behaves(states, events) && k < |events|
    ensures Enabled(states[k], events[k]) && states[k + 1] == Step(states[k], events[k])
  {
  }

  lemma NoneEndsOneMore(events: seq<Event>, i: nat, k: nat)
    requires i + 1 < k <= |events|
    ensures NoneEnds(events, i, k) <==>
            NoneEnds(events, i, k - 1) && !EndsBelief(events[k - 1], CountedFrom(events, i, k - 1))
  {
  }

  /**
   * When belief outlasts the row: since its last confirmation the process
   * believes at `t` with no row behind it exactly when no reply since was a
   * refusal, or an error a whole lease after the time it counts from, and it has
   * not left, and `t` is past a lease from the last time its calls moved the row.
   * It counts from the confirmation heard, or from the beginning of its loop when
   * that came later.
   */
  lemma BeliefOutlastsRowIff(states: seq<Watch>, events: seq<Event>, i: nat, k: nat, t: int)
    requires LastConfirmed(states, events, i, k) && states[k].clock <= t
    ensures states[k].term == states[i + 1].term && !Holds(states[k].lease, states[k].who, states[i + 1].term, t) <==>
            NoneEnds(events, i, k) && t > states[k].backed + LEASE
  {
    InvThroughout(states, events, k);
    BelievedSince(states, events, i, k);
    if states[k].term != 0 {
      BackedUntil(states[k], t);
    }
  }

  /** With no later renewal applied, the row was last moved by the call confirmed. */
  lemma {:induction false} BackedByTheConfirmed(states: seq<Watch>, events: seq<Event>, i: nat, k: nat)
    requires LastConfirmed(states, events, i, k) && forall j :: i < j < k && events[j].Ask? ==> !events[j].applied
    ensures states[k].term != 0 ==> states[k].backed == states[i].call.value.at
    decreases k
  {
    InvThroughout(states, events, k - 1);
    assert states[k - 1 + 1] == Step(states[k - 1], events[k - 1]);
    if i + 1 < k {
      assert LastConfirmed(states, events, i, k - 1);
      BackedByTheConfirmed(states, events, i, k - 1);
    }
  }

  /**
   * And by how much: less than the time from asking to counting, which is the
   * confirmation's latency or at start-up the delay until the loop begins, and
   * the time since the last reply, or that beginning, together.
   */
  lemma OverrunBounded(states: seq<Watch>, events: seq<Event>, k: nat, t: int, gap: int)
    requires Behaves(states, events) && k < |states| && states[k].term != 0
    requires t <= states[k].heard + gap
    ensures t - (states[k].backed + LEASE) < (states[k].renewed - states[k].asked) + gap
  {
    InvThroughout(states, events, k);
  }

  /** No smaller bound will do: for every delay in a start-up and every gap after it a run comes within one of it. */
  lemma OverrunReached(who: Proc, latency: nat, gap: nat) returns (states: seq<Watch>, events: seq<Event>, t: int)
    ensures Behaves(states, events) && |events| == 5 && states[5].term == 1
    ensures states[5].clock <= t == states[5].heard + gap
    ensures states[5].renewed - states[5].asked == latency
    ensures t - (states[5].backed + LEASE) == latency + gap - 1
  {
    var late := latency + LEASE - 1;
    events := [Ask(0, true), Hear(0, true), Begin(latency), Ask(late, false), Hear(late, false)];
    var w0 := Idle(who, Lease(0, None, None), 0, 0).(begun := false);
    var w1 := Step(w0, events[0]);
    var w2 := Step(w1, events[1]);
    var w3 := Step(w2, events[2]);
    var w4 := Step(w3, events[3]);
    var w5 := Step(w4, events[4]);
    states, t := [w0, w1, w2, w3, w4, w5], late + gap;
    forall k | 0 <= k < |events| ensures Enabled(states[k], events[k]) && states[k + 1] == Step(states[k], events[k]) {
      assert k == 0 || k == 1 || k == 2 || k == 3 || k == 4;
    }
  }

  /** Nor once the loop runs, for every latency of a renewal's confirmation. */
  lemma OverrunReachedLater(who: Proc, latency: nat, gap: nat) returns (states: seq<Watch>, events: seq<Event>, t: int)
    ensures Behaves(states, events) && |events| == 5 && states[5].term == 1
    ensures states[5].clock <= t == states[5].heard + gap
    ensures states[5].renewed - states[5].asked == latency
    ensures t - (states[5].backed + LEASE) == latency + gap - 1
  {
    var late := latency + LEASE - 1;
    events := [Begin(0), Ask(0, true), Hear(latency, true), Ask(late, false), Hear(late, false)];
    var w0 := Idle(who, Lease(0, None, None), 0, 0).(begun := false);
    var w1 := Step(w0, events[0]);
    var w2 := Step(w1, events[1]);
    var w3 := Step(w2, events[2]);
    var w4 := Step(w3, events[3]);
    var w5 := Step(w4, events[4]);
    states, t := [w0, w1, w2, w3, w4, w5], late + gap;
    forall k | 0 <= k < |events| ensures Enabled(states[k], events[k]) && states[k + 1] == Step(states[k], events[k]) {
      assert k == 0 || k == 1 || k == 2 || k == 3 || k == 4;
    }
  }
}
