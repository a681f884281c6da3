/** Sequences without repetition, and the comparison of sizes that detects one. */
module Sequences {

  ghost predicate Distinct<T>(s: seq<T>) {
    forall i, j :: 0 <= i < j < |s| ==> s[i] != s[j]
  }

  function Elements<T>(s: seq<T>): set<T> {
    set x | x in s
  }

  /** As many different elements as positions: no element twice. */
  lemma {:induction false} CountMeansDistinct<T>(s: seq<T>)
    ensures |Elements(s)| <= |s|
    ensures |Elements(s)| == |s| <==> Distinct(s)
  {
    if s != [] {
      var rest, last := s[..|s| - 1], s[|s| - 1];
      CountMeansDistinct(rest);
      assert s == rest + [last];
      assert Elements(s) == Elements(rest) + {last};
      assert Distinct(s) <==> Distinct(rest) && last !in rest;
    }
  }

  lemma {:induction false} DistinctSplits<T>(s: seq<T>)
    requires Distinct(s) && s != []
    ensures Distinct(s[..|s| - 1]) && s[|s| - 1] !in s[..|s| - 1]
    ensures s == s[..|s| - 1] + [s[|s| - 1]]
  {
  }
}
