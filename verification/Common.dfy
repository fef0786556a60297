/** Small shared vocabulary: optional values, results, and facts about distinct sequences. */
module Common {
  datatype Option<+T> = None | Some(value: T) {
    predicate IsFailure() {
      None?
    }

    function PropagateFailure<U>(): Option<U>
      requires None?
    {
      None
    }

    function Extract(): T
      requires Some?
    {
      value
    }
  }

  datatype Result<+T, +E> = Ok(value: T) | Err(error: E)

  /** No element of `s` occurs twice. */
  ghost predicate Distinct<T>(s: seq<T>) {
    forall i, j :: 0 <= i < j < |s| ==> s[i] != s[j]
  }

  /** The compilable form of `Distinct`, which the validators run. */
  predicate AllDistinct<T(==)>(s: seq<T>)
    ensures AllDistinct(s) <==> Distinct(s)
  {
    s == [] || (s[0] !in s[1..] && AllDistinct(s[1..]))
  }

  /** A sequence without repeats is no longer than a set that holds all its elements. */
  lemma {:induction false} DistinctFitsInSet<T>(s: seq<T>, bound: set<T>)
    requires Distinct(s)
    requires forall x :: x in s ==> x in bound
    ensures |s| <= |bound|
  {
    if s != [] {
      DistinctFitsInSet(s[1..], bound - {s[0]});
    }
  }
}
