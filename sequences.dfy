/** Sequence helpers shared by the registry model: the linear first-match
    search that std::find_if and std::find perform, and distinctness of handles. */
module Sequences {

  /** No element occurs twice: every handle in the sequence is a different object. */
  ghost predicate Distinct<T>(s: seq<T>) {
    forall i, j :: 0 <= i < j < |s| ==> s[i] != s[j]
  }

  /** The distance from the start of `s` to the first element satisfying `p`,
      or -1 when the search reaches the end (std::find_if followed by
      std::distance, with end() mapped to -1). */
  function FindIf<T>(s: seq<T>, p: T -> bool): (r: int)
    ensures -1 <= r < |s|
    ensures r == -1 <==> forall j :: 0 <= j < |s| ==> !p(s[j])
    ensures 0 <= r ==> p(s[r]) && forall j :: 0 <= j < r ==> !p(s[j])
    decreases |s|
  {
    if s == [] then -1
    else if p(s[0]) then 0
    else
      var r := FindIf(s[1..], p);
      assert forall j :: 1 <= j < |s| ==> s[j] == s[1..][j - 1];
      if r == -1 then -1 else r + 1
  }
}
