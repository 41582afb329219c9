/** Sequences without repetition. */
module Sequences {

  ghost predicate Distinct<T>(s: seq<T>) {
    forall i, j :: 0 <= i < j < |s| ==> s[i] != s[j]
  }

  /** Whether a list has no repetition. */
  method AllDistinct(s: seq<string>) returns (distinct: bool)
    ensures distinct <==> Distinct(s)
  {
    var seen: set<string> := {};
    for n := 0 to |s|
      invariant seen == (set x | x in s[..n])
      invariant Distinct(s[..n])
    {
      if s[n] in seen {
        return false;
      }
      seen := seen + {s[n]};
      assert s[..n + 1] == s[..n] + [s[n]];
    }
    assert s[..|s|] == s;
    distinct := true;
  }
}
