/** Option and Result, shared by every module. */
module Prelude {
  datatype Option<+T> = None | Some(value: T)

  datatype Result<+T, +E> = Ok(value: T) | Err(error: E)

  predicate NoRepeats<T(==)>(s: seq<T>) {
    forall i, j :: 0 <= i < j < |s| ==> s[i] != s[j]
  }

  // A sequence without repeats drawn from a finite set is no longer than the set.
  lemma {:induction false} NoRepeatsBound<T>(s: seq<T>, u: set<T>)
    requires NoRepeats(s)
    requires forall x :: x in s ==> x in u
    ensures |s| <= |u|
  {
    if s != [] {
      var last := s[|s| - 1];
      assert last in s;
      var rest := s[..|s| - 1];
      forall x | x in rest ensures x in u - {last} {
        assert x in s;
      }
      NoRepeatsBound(rest, u - {last});
    }
  }

  lemma {:induction false} SubsetSize<T>(a: set<T>, b: set<T>)
    requires a <= b
    ensures |a| <= |b|
  {
    if a != {} {
      var x :| x in a;
      SubsetSize(a - {x}, b - {x});
    }
  }
}
