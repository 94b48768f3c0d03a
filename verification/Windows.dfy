/**
 * Key sets over time (src/partition.rs): a declared set stays as it is, a daily
 * or hourly one runs from its start to now, and past a limit only the newest
 * keys are kept.
 */
module Windows {
  import opened Prelude
  import opened Assets
  import opened Freshness
  import opened Builds
  import opened Memo
  import opened MemoRuns

  const MAX_KEYS: nat := 10000

  /** Declared keys, or one for each whole unit of the clock from the first. */
  datatype Kind = Static(keys: seq<Key>) | Running(first: int, unit: int, keyAt: int -> Key)

  // Units have a length, and two of them never share a key.
  ghost predicate Proper(kind: Kind) {
    kind.Running? ==> kind.unit > 0 && forall i, j :: kind.keyAt(i) == kind.keyAt(j) ==> i == j
  }

  function Oldest(kind: Kind, now: int): int
    requires kind.Running? && kind.unit > 0
  {
    var kept := now / kind.unit - MAX_KEYS + 1;
    if kept < kind.first then kind.first else kept
  }

  /** A key is held exactly when its unit has begun and is among the newest. */
  ghost predicate HeldAt(kind: Kind, now: int, k: Key)
    requires Proper(kind)
  {
    match kind
    case Static(keys) => k in keys
    case Running(_, unit, keyAt) => exists i :: Oldest(kind, now) <= i <= now / unit && keyAt(i) == k
  }

  // How many of the units begun are kept.
  function Begun(units: int): (n: nat)
    ensures n <= 10000 && (units <= 0 ==> n == 0)
    ensures units > 0 ==> n <= units && (n < units ==> n == 10000)
  {
    if units < 0 then 0 else if units <= MAX_KEYS then units else MAX_KEYS
  }

  lemma OldestIs(kind: Kind, now: int)
    requires kind.Running? && kind.unit > 0
    ensures var n := Begun(now / kind.unit - kind.first + 1);
            if n > 0 then Oldest(kind, now) == now / kind.unit - n + 1 else Oldest(kind, now) > now / kind.unit
  {
  }

  /** Every key up to now, oldest first, and of too many the newest. */
  method KeysUntil(kind: Kind, now: int) returns (keys: seq<Key>)
    requires Proper(kind)
    ensures forall k :: k in keys <==> HeldAt(kind, now, k)
    ensures kind.Static? ==> keys == kind.keys
    ensures kind.Running? ==>
              && |keys| == Begun(now / kind.unit - kind.first + 1)
              && forall j :: 0 <= j < |keys| ==> keys[j] == kind.keyAt(now / kind.unit - |keys| + 1 + j)
  {
    if kind.Static? {
      return kind.keys;
    }
    keys := [];
    var at := kind.first;
    while at <= now / kind.unit
      invariant |keys| == at - kind.first && (at <= now / kind.unit + 1 || keys == [])
      invariant forall j :: 0 <= j < |keys| ==> keys[j] == kind.keyAt(kind.first + j)
    {
      keys := keys + [kind.keyAt(at)];
      at := at + 1;
    }
    if |keys| > MAX_KEYS {
      keys := keys[|keys| - MAX_KEYS..];
    }
    HoldsThem(kind, now, keys);
  }

  lemma HoldsThem(kind: Kind, now: int, keys: seq<Key>)
    requires Proper(kind) && kind.Running? && |keys| == Begun(now / kind.unit - kind.first + 1)
    requires forall j :: 0 <= j < |keys| ==> keys[j] == kind.keyAt(now / kind.unit - |keys| + 1 + j)
    ensures forall k :: k in keys <==> HeldAt(kind, now, k)
  {
    OldestIs(kind, now);
    var oldest := now / kind.unit - |keys| + 1;
    forall k | HeldAt(kind, now, k) ensures k in keys {
      var i :| Oldest(kind, now) <= i <= now / kind.unit && kind.keyAt(i) == k;
      assert keys[i - oldest] == k;
    }
    forall k | k in keys ensures HeldAt(kind, now, k) {
      var j :| 0 <= j < |keys| && keys[j] == k;
      assert kind.keyAt(oldest + j) == k;
    }
  }

  // A key that was held and is too old now.
  ghost predicate Passed(kind: Kind, now: int, k: Key)
    requires Proper(kind)
  {
    kind.Running? && exists i :: i < Oldest(kind, now) && kind.keyAt(i) == k
  }

  lemma UnitsRise(unit: int, earlier: int, later: int)
    requires unit > 0 && earlier <= later
    ensures earlier / unit <= later / unit
  {
    Quotient(unit, earlier / unit, later / unit, earlier % unit, later % unit);
  }

  lemma Quotient(unit: int, p: int, q: int, r: int, s: int)
    requires 0 <= r < unit && 0 <= s < unit && p * unit + r <= q * unit + s
    ensures p <= q
  {
    var behind := p - q;
    assert behind * unit < unit;
    Multiple(behind, unit);
  }

  lemma Multiple(n: int, unit: int)
    requires unit > 0
    ensures n >= 1 ==> n * unit >= unit
  {
  }

  /** While the clock does not run backwards a key leaves its set only by growing too old, and then for good. */
  lemma LeftIsPassed(kind: Kind, earlier: int, later: int, k: Key)
    requires Proper(kind) && earlier <= later
    ensures HeldAt(kind, earlier, k) && !HeldAt(kind, later, k) ==> Passed(kind, later, k)
    ensures Passed(kind, earlier, k) ==> Passed(kind, later, k)
    ensures Passed(kind, later, k) ==> !HeldAt(kind, later, k)
  {
    if kind.Running? {
      UnitsRise(kind.unit, earlier, later);
      if HeldAt(kind, earlier, k) && !HeldAt(kind, later, k) {
        var i :| Oldest(kind, earlier) <= i <= earlier / kind.unit && kind.keyAt(i) == k;
        assert i < Oldest(kind, later);
      }
    }
  }

  ghost predicate SetsAt(kinds: map<Name, Kind>, now: int, sets: Sets) {
    && sets.Keys == kinds.Keys
    && forall n :: n in kinds ==> Proper(kinds[n]) && forall k :: k in sets[n] <==> HeldAt(kinds[n], now, k)
  }

  /** The key sets of a history are what a clock that does not run backwards makes of their kinds. */
  ghost predicate Clocked(kinds: map<Name, Kind>, trace: seq<State>, times: seq<int>) {
    && |times| == |trace|
    && (forall i, j :: 0 <= i <= j < |times| ==> times[i] <= times[j])
    && forall i :: 0 <= i < |trace| ==> SetsAt(kinds, times[i], trace[i].sets)
  }

  ghost predicate DropsPassed(kinds: map<Name, Kind>, now: int, dropped: Drops) {
    forall n, k :: (n, k) in dropped ==> n in kinds && Proper(kinds[n]) && Passed(kinds[n], now, k)
  }

  lemma StepDropsPassed(kinds: map<Name, Kind>, earlier: int, later: int, sets: Sets, sets': Sets, dropped: Drops)
    requires SetsAt(kinds, earlier, sets) && SetsAt(kinds, later, sets') && earlier <= later
    requires DropsPassed(kinds, earlier, dropped)
    ensures DropsPassed(kinds, later, dropped + Gone(sets, sets')) && DropsPassed(kinds, later, dropped)
  {
    forall n, k | (n, k) in dropped + Gone(sets, sets')
      ensures n in kinds && Proper(kinds[n]) && Passed(kinds[n], later, k)
    {
      assert n in kinds;
      LeftIsPassed(kinds[n], earlier, later, k);
    }
  }

  lemma StepDrops(reg: Registry, world: World, s: State, t: State)
    requires reg.Valid() && Next(reg, world, s, t)
    ensures t.dropped == s.dropped || t.dropped == s.dropped + Gone(s.sets, t.sets)
  {
    if TickStep(reg, s, t) {
    } else if a, fp :| ProbeStep(reg, s, t, a, fp) {
    } else if job, fps :| CommitStep(reg, s, t, job, fps) {
    } else if job :| GoesOn(reg, world, s, t, job) {
      GoesOnFrame(reg, world, s, t, job);
    }
  }

  lemma {:induction false} DropsAgeOut(reg: Registry, world: World, kinds: map<Name, Kind>, trace: seq<State>,
                                       times: seq<int>, i: nat)
    requires reg.Valid() && Behaviour(reg, world, trace) && Clocked(kinds, trace, times) && i < |trace|
    ensures DropsPassed(kinds, times[i], trace[i].dropped)
  {
    if i > 0 {
      DropsAgeOut(reg, world, kinds, trace, times, i - 1);
      assert Next(reg, world, trace[i - 1], trace[i - 1 + 1]);
      StepDrops(reg, world, trace[i - 1], trace[i]);
      StepDropsPassed(kinds, times[i - 1], times[i], trace[i - 1].sets, trace[i].sets, trace[i - 1].dropped);
    }
  }

  /** Under a clock that does not run backwards, no key set takes back a key it dropped. */
  lemma ClockedIsSteady(reg: Registry, world: World, kinds: map<Name, Kind>, trace: seq<State>, times: seq<int>, i: nat)
    requires reg.Valid() && Behaviour(reg, world, trace) && Clocked(kinds, trace, times) && i < |trace|
    ensures Steady(trace, i)
  {
    forall j | 0 <= j <= i ensures NoneBack(trace[j].sets, trace[j].dropped) {
      DropsAgeOut(reg, world, kinds, trace, times, j);
      forall n, k | (n, k) in trace[j].dropped && n in trace[j].sets ensures k !in trace[j].sets[n] {
        LeftIsPassed(kinds[n], times[j], times[j], k);
      }
    }
  }
}
