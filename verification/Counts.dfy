/** Counting facts about sequences. */
module Counts {

  ghost predicate IsInjective<T>(s: seq<T>) {
    forall i, j :: 0 <= i < j < |s| ==> s[i] != s[j]
  }

  /** Distinct elements of a set are no more than the set has. */
  lemma {:induction false} DistinctElementsFit<T>(s: seq<T>, u: set<T>)
    requires IsInjective(s)
    requires forall i :: 0 <= i < |s| ==> s[i] in u
    ensures |s| <= |u|
  {
    if s != [] {
      var last := |s| - 1;
      assert forall i :: 0 <= i < last ==> s[..last][i] == s[i];
      DistinctElementsFit(s[..last], u - {s[last]});
    }
  }
}
