/**
 * The deciding lease (src/decider.rs, src/store.rs): one row that says which
 * process may decide and under which term, what each process believes of it,
 * and the fence every decision is committed through.
 */
module Deciders {
  import opened Prelude
  import opened Leases

  // ----------------------------------------------------------- the row and a process

  class Row {
    var lease: Lease

    constructor ()
      ensures lease == Lease(0, None, None)
    {
      lease := Lease(0, None, None);
    }

    /** Take the lease when it is free, ours already, or past its time: always under a new term. */
    method Take(who: Proc, at: int) returns (term: Option<nat>)
      modifies this
      ensures lease == AfterTake(old(lease), who, at)
      ensures term == if Free(old(lease), who, at) then Some(old(lease).term + 1) else None
      ensures term.None? <==>
              && old(lease).holder.Some? && old(lease).holder.value != who
              && old(lease).until.Some? && at <= old(lease).until.value
      ensures lease == if term.Some? then Lease(old(lease).term + 1, Some(who), Some(at + 10000)) else old(lease)
    {
      if lease.holder.None? || lease.holder.value == who || lease.until.None? || lease.until.value < at {
        lease := Lease(lease.term + 1, Some(who), Some(at + LEASE));
        return Some(lease.term);
      }
      return None;
    }

    /** Push the lease out, if it is still held under this term and has not run out. */
    method Renew(who: Proc, term: nat, at: int) returns (held: bool)
      modifies this
      ensures lease == AfterRenew(old(lease), who, term, at) && (held <==> Holds(old(lease), who, term, at))
      ensures held <==> old(lease).holder == Some(who) && old(lease).term == term
                        && old(lease).until.Some? && at <= old(lease).until.value
      ensures lease == if held then Lease(term, Some(who), Some(at + 10000)) else old(lease)
    {
      held := lease.holder == Some(who) && lease.term == term && lease.until.Some? && lease.until.value >= at;
      if held {
        lease := lease.(until := Some(at + LEASE));
      }
    }

    /** Give the lease up; the term stays where it is. */
    method Release(who: Proc, term: nat) returns (released: bool)
      modifies this
      ensures lease == AfterRelease(old(lease), who, term)
      ensures released <==> old(lease).holder == Some(who) && old(lease).term == term
      ensures lease == if released then Lease(term, None, None) else old(lease)
    {
      released := lease.holder == Some(who) && lease.term == term;
      if released {
        lease := lease.(holder := None, until := None);
      }
    }

    /** Refuse a decision unless its maker still holds the lease under its term. */
    method Fence(who: Proc, term: nat, at: int) returns (passes: bool)
      ensures passes <==> Holds(lease, who, term, at)
      ensures passes <==>
              lease.holder == Some(who) && lease.term == term && lease.until.Some? && at <= lease.until.value
    {
      passes := lease.holder == Some(who) && lease.term == term && lease.until.Some? && lease.until.value >= at;
    }
  }

  /**
   * A process that runs the election: the term it believes it holds, zero for
   * none, and when that was last confirmed.
   */
  class Process {
    const who: Proc
    const row: Row
    var term: nat
    var renewed: int

    constructor (who: Proc, row: Row, at: int)
      ensures this.who == who && this.row == row && term == 0 && renewed == at
    {
      this.who, this.row, term, renewed := who, row, 0, at;
    }

    /** The loop begins: whatever was taken at start-up, a lease is counted from here. */
    method Begin(at: int)
      modifies this`renewed
      ensures renewed == at
    {
      renewed := at;
    }

    /** Try once to take the lease; an error leaves the belief alone, whatever it did to the row. */
    method TakeNow(at: int, reply: Reply) returns (took: bool)
      modifies this, row
      ensures reply.Answered? ==>
                row.lease == AfterTake(old(row.lease), who, at) && (took <==> Free(old(row.lease), who, at))
      ensures reply.Failed? ==>
                !took && row.lease == if reply.applied then AfterTake(old(row.lease), who, at) else old(row.lease)
      ensures term == if took then row.lease.term else old(term)
      ensures renewed == old(renewed)
    {
      took := false;
      if reply.Answered? || reply.applied {
        var granted := row.Take(who, at);
        if reply.Answered? && granted.Some? {
          term := granted.value;
          took := true;
        }
      }
    }

    /** Hand the lease back: the belief is cleared before the row is touched. */
    method HandBack(reply: Reply)
      modifies this, row
      ensures term == 0 && renewed == old(renewed)
      ensures row.lease == if old(term) != 0 && (reply.Answered? || reply.applied) then AfterRelease(old(row.lease),
                                                                                                     who, old(term))
                           else old(row.lease)
    {
      var held := term;
      if held == 0 {
        return;
      }
      term := 0;
      if reply.Answered? || reply.applied {
        var released := row.Release(who, held);
      }
    }

    /**
     * One turn of the loop: take the lease, or renew it. A renewal refused ends
     * the term; one that errors ends it once nothing has been confirmed for a
     * whole lease. `at` is the row's time, `heard` the process's own on hearing back.
     */
    method Turn(stopping: bool, at: int, heard: int, reply: Reply)
      modifies this, row
      ensures stopping ==> term == old(term) && renewed == old(renewed) && row.lease == old(row.lease)
      ensures !stopping && old(term) != 0 && reply.Answered? ==>
                && row.lease == AfterRenew(old(row.lease), who, old(term), at)
                && (if Holds(old(row.lease), who, old(term), at) then term == old(term) && renewed == heard
                    else term == 0 && renewed == old(renewed))
      ensures !stopping && old(term) != 0 && reply.Failed? ==>
                && row.lease == (if reply.applied then AfterRenew(old(row.lease), who, old(term), at)
                                 else old(row.lease))
                && renewed == old(renewed)
                && term == if heard - old(renewed) >= LEASE then 0 else old(term)
      ensures !stopping && old(term) == 0 ==>
                && (row.lease == AfterTake(old(row.lease), who, at) || (reply.Failed? && row.lease == old(row.lease)))
                && (term != 0 <==> reply.Answered? && Free(old(row.lease), who, at))
                && (term != 0 ==> term == row.lease.term && renewed == heard)
      ensures !stopping ==>
                Turns(old(Idle(who, row.lease, term, renewed)), at, heard, reply, Idle(who, row.lease, term, renewed))
    {
      if stopping {
        return;
      }
      if term == 0 {
        var took := TakeNow(at, reply);
        if took {
          renewed := heard;
        }
        return;
      }
      match reply {
        case Answered =>
          var held := row.Renew(who, term, at);
          if held {
            renewed := heard;
          } else {
            term := 0;
          }
        case Failed(applied) =>
          if applied {
            var held := row.Renew(who, term, at);
          }
          if heard - renewed >= LEASE {
            term := 0;
          }
      }
    }
  }

  /** What a turn leaves of the row and of the belief is what its call and its reply leave, with nothing in between. */
  ghost predicate Turns(before: Watch, at: int, heard: int, reply: Reply, after: Watch) {
    var w := Turned(before, at, heard, reply);
    after.lease == w.lease && after.term == w.term && after.renewed == w.renewed
  }

  // ----------------------------------------------------------- any number of processes

  /**
   * The row, what each process believes, the terms replies are still carrying to
   * them, the ones they are handing back, who was granted each term, and the
   * decisions committed so far.
   */
  datatype World = World(
    lease: Lease,
    belief: map<Proc, nat>,
    arriving: map<Proc, nat>,
    leaving: map<Proc, nat>,
    grants: map<nat, Proc>,
    commits: seq<(Proc, nat)>)

  // Each call reads whatever its own clock says; clocks need not agree or even move forward.
  datatype Event =
    | Takes(who: Proc, at: int, reply: Reply)
    | Adopts(who: Proc)
    | Renews(who: Proc, term: nat, at: int)
    | Doubts(who: Proc)
    | Leaves(who: Proc)
    | Releases(who: Proc)
    | Decides(who: Proc, term: nat, at: int)

  function Believed(w: World, p: Proc): nat {
    if p in w.belief then w.belief[p] else 0
  }

  // A take that is answered is on its way to its process; one that fails may have been applied unheard.
  function Granted(w: World, who: Proc, at: int, reply: Reply): World {
    var lease := AfterTake(w.lease, who, at);
    if !Free(w.lease, who, at) || (reply.Failed? && !reply.applied) then w
    else
      w.(lease := lease, grants := w.grants[lease.term := who],
         arriving := if reply.Answered? then w.arriving[who := lease.term] else w.arriving)
  }

  // A process decides under a term it was once granted, however long ago it read it.
  predicate Enabled(w: World, e: Event) {
    match e
    case Takes(who, _, _) => who !in w.arriving
    case Adopts(who) => who in w.arriving
    case Renews(who, term, _) => term in w.grants && w.grants[term] == who
    case Doubts(_) => true
    case Leaves(who) => Believed(w, who) != 0 && who !in w.leaving
    case Releases(who) => who in w.leaving
    case Decides(who, term, _) => term in w.grants && w.grants[term] == who
  }

  function Step(w: World, e: Event): World
    requires Enabled(w, e)
  {
    match e
    case Takes(who, at, reply) => Granted(w, who, at, reply)
    case Adopts(who) => w.(belief := w.belief[who := w.arriving[who]], arriving := w.arriving - {who})
    case Renews(who, term, at) => w.(lease := AfterRenew(w.lease, who, term, at))
    case Doubts(who) => w.(belief := w.belief[who := 0])
    case Leaves(who) => w.(belief := w.belief[who := 0], leaving := w.leaving[who := Believed(w, who)])
    case Releases(who) => w.(lease := AfterRelease(w.lease, who, w.leaving[who]), leaving := w.leaving - {who})
    case Decides(who, term, at) => if Holds(w.lease, who, term, at) then w.(commits := w.commits + [(who, term)]) else w
  }

  ghost predicate Start(w: World) {
    w == World(Lease(0, None, None), map[], map[], map[], map[], [])
  }

  ghost predicate GrantedTo(w: World, p: Proc, term: nat) {
    term in w.grants && w.grants[term] == p
  }

  ghost predicate Terms(w: World) {
    && (forall t :: t in w.grants <==> 1 <= t <= w.lease.term)
    && (w.lease.holder.Some? ==> GrantedTo(w, w.lease.holder.value, w.lease.term))
    && (forall p :: p in w.belief && w.belief[p] != 0 ==> GrantedTo(w, p, w.belief[p]))
    && (forall p :: p in w.arriving ==> GrantedTo(w, p, w.arriving[p]))
    && forall p :: p in w.leaving ==> GrantedTo(w, p, w.leaving[p])
  }

  // What a process believes, is about to and is giving up are different terms.
  ghost predicate Distinct(w: World) {
    && (forall p :: p in w.arriving ==> Believed(w, p) != w.arriving[p])
    && (forall p :: p in w.leaving ==> Believed(w, p) != w.leaving[p])
    && forall p :: p in w.arriving && p in w.leaving ==> w.arriving[p] != w.leaving[p]
  }

  ghost predicate Ordered(w: World) {
    && (forall i :: 0 <= i < |w.commits| ==> GrantedTo(w, w.commits[i].0, w.commits[i].1))
    && forall i, j :: 0 <= i < j < |w.commits| ==> w.commits[i].1 <= w.commits[j].1
  }

  ghost predicate Inv(w: World) {
    Terms(w) && Distinct(w) && Ordered(w)
  }

  lemma TakeKeepsTerms(w: World, who: Proc, at: int, reply: Reply)
    requires Terms(w) && who !in w.arriving
    ensures Terms(Granted(w, who, at, reply))
  {
    var w' := Granted(w, who, at, reply);
    forall p | p in w.belief && w.belief[p] != 0 ensures GrantedTo(w', p, w.belief[p]) {
      assert GrantedTo(w, p, w.belief[p]);
    }
    forall p | p in w.leaving ensures GrantedTo(w', p, w.leaving[p]) {
      assert GrantedTo(w, p, w.leaving[p]);
    }
    forall p | p in w'.arriving ensures GrantedTo(w', p, w'.arriving[p]) {
      if p in w.arriving {
        assert GrantedTo(w, p, w.arriving[p]);
      }
    }
  }

  lemma TakeKeepsDistinct(w: World, who: Proc, at: int, reply: Reply)
    requires Terms(w) && Distinct(w) && who !in w.arriving
    ensures Distinct(Granted(w, who, at, reply))
  {
    var w' := Granted(w, who, at, reply);
    forall p | p in w'.arriving
      ensures Believed(w', p) != w'.arriving[p] && (p in w'.leaving ==> w'.arriving[p] != w'.leaving[p])
    {
      if p !in w.arriving {
        assert w'.arriving[p] == w.lease.term + 1;
        assert Believed(w, p) != 0 ==> GrantedTo(w, p, Believed(w, p));
        assert p in w.leaving ==> GrantedTo(w, p, w.leaving[p]);
      }
    }
  }

  lemma TakeKeepsOrdered(w: World, who: Proc, at: int, reply: Reply)
    requires Terms(w) && Ordered(w)
    ensures Ordered(Granted(w, who, at, reply))
  {
    var w' := Granted(w, who, at, reply);
    forall i | 0 <= i < |w.commits| ensures GrantedTo(w', w.commits[i].0, w.commits[i].1) {
      assert GrantedTo(w, w.commits[i].0, w.commits[i].1);
    }
  }

  lemma DecideKeepsInv(w: World, who: Proc, term: nat, at: int)
    requires Inv(w) && GrantedTo(w, who, term)
    ensures Inv(if Holds(w.lease, who, term, at) then w.(commits := w.commits + [(who, term)]) else w)
  {
    forall i | 0 <= i < |w.commits| ensures w.commits[i].1 <= w.lease.term {
      assert GrantedTo(w, w.commits[i].0, w.commits[i].1);
    }
  }

  lemma AdoptKeepsInv(w: World, who: Proc)
    requires Inv(w) && who in w.arriving
    ensures Inv(w.(belief := w.belief[who := w.arriving[who]], arriving := w.arriving - {who}))
  {
    assert GrantedTo(w, who, w.arriving[who]);
  }

  lemma LeaveKeepsInv(w: World, who: Proc)
    requires Inv(w) && Believed(w, who) != 0 && who !in w.leaving
    ensures Inv(w.(belief := w.belief[who := 0], leaving := w.leaving[who := Believed(w, who)]))
  {
    assert GrantedTo(w, who, Believed(w, who));
  }

  // Steps that only touch the row's lease or drop what a process holds in hand.
  lemma LesserKeepsInv(w: World, w': World)
    requires Inv(w) && w'.grants == w.grants && w'.commits == w.commits && w'.lease.term == w.lease.term
    requires w'.lease.holder.Some? ==> w'.lease.holder == w.lease.holder
    requires w'.arriving == w.arriving && forall p :: Believed(w', p) == Believed(w, p) || Believed(w', p) == 0
    requires forall p :: p in w'.leaving ==> p in w.leaving && w'.leaving[p] == w.leaving[p]
    ensures Inv(w')
  {
    forall p | p in w'.belief && w'.belief[p] != 0 ensures GrantedTo(w', p, w'.belief[p]) {
      assert Believed(w', p) == Believed(w, p);
      assert GrantedTo(w, p, w.belief[p]);
    }
    forall p | p in w'.arriving ensures GrantedTo(w', p, w'.arriving[p]) && Believed(w', p) != w'.arriving[p] {
      assert GrantedTo(w, p, w.arriving[p]);
    }
    forall p | p in w'.leaving ensures GrantedTo(w', p, w'.leaving[p]) && Believed(w', p) != w'.leaving[p] {
      assert GrantedTo(w, p, w.leaving[p]);
    }
    forall i | 0 <= i < |w.commits| ensures GrantedTo(w', w.commits[i].0, w.commits[i].1) {
      assert GrantedTo(w, w.commits[i].0, w.commits[i].1);
    }
  }

  lemma StepKeepsInv(w: World, e: Event)
    requires Inv(w) && Enabled(w, e)
    ensures Inv(Step(w, e))
  {
    match e
    case Takes(who, at, reply) =>
      TakeKeepsTerms(w, who, at, reply);
      TakeKeepsDistinct(w, who, at, reply);
      TakeKeepsOrdered(w, who, at, reply);
    case Decides(who, term, at) => DecideKeepsInv(w, who, term, at);
    case Adopts(who) => AdoptKeepsInv(w, who);
    case Leaves(who) => LeaveKeepsInv(w, who);
    case Renews(who, term, at) => LesserKeepsInv(w, Step(w, e));
    case Doubts(who) => LesserKeepsInv(w, Step(w, e));
    case Releases(who) => LesserKeepsInv(w, Step(w, e));
  }

  ghost predicate Behaves(states: seq<World>, events: seq<Event>) {
    && |states| == |events| + 1 && Start(states[0])
    && forall k :: 0 <= k < |events| ==> Enabled(states[k], events[k]) && states[k + 1] == Step(states[k], events[k])
  }

  lemma {:induction false} InvThroughout(states: seq<World>, events: seq<Event>, k: nat)
    requires Behaves(states, events) && k < |states|
    ensures Inv(states[k])
  {
    if k > 0 {
      InvThroughout(states, events, k - 1);
      StepKeepsInv(states[k - 1], events[k - 1]);
    }
  }

  /** A term is held by one process: no two ever believe in the same one. */
  lemma OneBelieverPerTerm(states: seq<World>, events: seq<Event>, k: nat, p: Proc, q: Proc)
    requires Behaves(states, events) && k < |states| && Believed(states[k], p) == Believed(states[k], q) != 0
    ensures p == q
  {
    InvThroughout(states, events, k);
    assert GrantedTo(states[k], p, Believed(states[k], p)) && GrantedTo(states[k], q, Believed(states[k], q));
  }

  lemma {:induction false} TermsRise(states: seq<World>, events: seq<Event>, i: nat, j: nat)
    requires Behaves(states, events) && i <= j < |states|
    ensures states[i].lease.term <= states[j].lease.term
  {
    if i < j {
      TermsRise(states, events, i, j - 1);
      assert states[j] == Step(states[j - 1], events[j - 1]);
    }
  }

  ghost predicate Acquires(states: seq<World>, k: nat, p: Proc)
    requires k + 1 < |states|
  {
    states[k + 1].lease.term != states[k].lease.term && states[k + 1].lease.holder == Some(p)
  }

  /** Every acquisition is a new, higher term, and nothing but an acquisition moves the term. */
  lemma AcquiringRaises(states: seq<World>, events: seq<Event>, k: nat)
    requires Behaves(states, events) && k < |events|
    ensures states[k + 1].lease.term == states[k].lease.term
            || (states[k + 1].lease.term == states[k].lease.term + 1 && events[k].Takes? && Acquires(states, k,
                                                                                                     events[k].who))
  {
    assert states[k + 1] == Step(states[k], events[k]);
  }

  /**
   * Once a later term has been taken nothing decided under an earlier one
   * commits, whatever its maker still believes and whatever its clock says.
   */
  lemma LaterTermFences(states: seq<World>, events: seq<Event>, i: nat, j: nat)
    requires Behaves(states, events) && i <= j < |events| && events[j].Decides? && events[j].term < states[i].lease.term
    ensures states[j + 1] == states[j]
  {
    TermsRise(states, events, i, j);
    assert states[j + 1] == Step(states[j], events[j]);
  }

  /** So the decisions committed are in the order of their terms, each by the one process granted it. */
  lemma CommitsInTermOrder(states: seq<World>, events: seq<Event>, k: nat, i: nat, j: nat)
    requires Behaves(states, events) && k < |states| && i <= j < |states[k].commits|
    ensures states[k].commits[i].1 <= states[k].commits[j].1
    ensures states[k].commits[i].1 == states[k].commits[j].1 ==> states[k].commits[i].0 == states[k].commits[j].0
  {
    InvThroughout(states, events, k);
    assert GrantedTo(states[k], states[k].commits[i].0, states[k].commits[i].1);
    assert GrantedTo(states[k], states[k].commits[j].0, states[k].commits[j].1);
  }

  /** The row is released only after its process has stopped believing in the term. */
  lemma BeliefGoesFirst(states: seq<World>, events: seq<Event>, k: nat)
    requires Behaves(states, events) && k < |events| && events[k].Releases?
    ensures Believed(states[k], events[k].who) != states[k].leaving[events[k].who]
    ensures states[k + 1].lease.holder == Some(events[k].who) ==>
              states[k + 1].lease.term != states[k].leaving[events[k].who]
  {
    InvThroughout(states, events, k);
    assert Enabled(states[k], events[k]) && states[k + 1] == Step(states[k], events[k]);
  }

  /**
   * Belief alone is not exclusive: a process paused past its lease still
   * believes while another takes the next term, and only the other's decision
   * commits.
   */
  lemma BeliefOutlastsTheLease(p: Proc, q: Proc) returns (states: seq<World>, events: seq<Event>)
    requires p != q
    ensures Behaves(states, events) && |events| == 6
    ensures Believed(states[4], p) == 1 && Believed(states[4], q) == 2
    ensures states[6].commits == [(q, 2)]
  {
    events := [Takes(p, 0, Answered), Adopts(p), Takes(q, 20000, Answered), Adopts(q), Decides(p, 1, 0),
               Decides(q, 2, 20000)];
    var w0 := World(Lease(0, None, None), map[], map[], map[], map[], []);
    var w1 := World(Lease(1, Some(p), Some(10000)), map[], map[p := 1], map[], map[1 := p], []);
    var w2 := World(Lease(1, Some(p), Some(10000)), map[p := 1], map[], map[], map[1 := p], []);
    var w3 := World(Lease(2, Some(q), Some(30000)), map[p := 1], map[q := 2], map[], map[1 := p, 2 := q], []);
    var w4 := World(Lease(2, Some(q), Some(30000)), map[p := 1, q := 2], map[], map[], map[1 := p, 2 := q], []);
    var w6 := w4.(commits := [(q, 2)]);
    OverlapSteps(p, q, w0, w1, w2, w3, w4, w6);
    states := [w0, w1, w2, w3, w4, w4, w6];
    forall k | 0 <= k < |events| ensures Enabled(states[k], events[k]) && states[k + 1] == Step(states[k], events[k]) {
      assert k == 0 || k == 1 || k == 2 || k == 3 || k == 4 || k == 5;
    }
  }

  lemma OverlapSteps(p: Proc, q: Proc, w0: World, w1: World, w2: World, w3: World, w4: World, w6: World)
    requires p != q && w0 == World(Lease(0, None, None), map[], map[], map[], map[], [])
    requires w1 == World(Lease(1, Some(p), Some(10000)), map[], map[p := 1], map[], map[1 := p], [])
    requires w2 == World(Lease(1, Some(p), Some(10000)), map[p := 1], map[], map[], map[1 := p], [])
    requires w3 == World(Lease(2, Some(q), Some(30000)), map[p := 1], map[q := 2], map[], map[1 := p, 2 := q], [])
    requires w4 == World(Lease(2, Some(q), Some(30000)), map[p := 1, q := 2], map[], map[], map[1 := p, 2 := q], [])
    requires w6 == w4.(commits := [(q, 2)])
    ensures Step(w0, Takes(p, 0, Answered)) == w1
    ensures Enabled(w1, Adopts(p)) && Step(w1, Adopts(p)) == w2
    ensures Enabled(w2, Takes(q, 20000, Answered)) && Step(w2, Takes(q, 20000, Answered)) == w3
    ensures Enabled(w3, Adopts(q)) && Step(w3, Adopts(q)) == w4
    ensures Enabled(w4, Decides(p, 1, 0)) && Step(w4, Decides(p, 1, 0)) == w4
    ensures Enabled(w4, Decides(q, 2, 20000)) && Step(w4, Decides(q, 2, 20000)) == w6
  {
    assert map[p := 1] - {p} == map[];
    assert map[q := 2] - {q} == map[];
    assert map[1 := p][2 := q] == map[1 := p, 2 := q];
  }

  /**
   * Nor does a process stop exactly when its row runs out, however fast it is
   * answered: the turn that errs in time keeps the belief, and nothing clears it
   * before the next.
   */
  method ErrorKeepsBelief(who: Proc) returns (row: Row, process: Process)
    ensures fresh(row) && fresh(process) && process.row == row && process.who == who
    ensures process.term == 1 && !Holds(row.lease, who, 1, 10500)
  {
    row := new Row();
    process := new Process(who, row, 0);
    process.Turn(false, 0, 0, Answered);
    process.Turn(false, 9000, 9000, Failed(false));
  }
}
