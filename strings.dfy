/** The piece of std::string the marker filter relies on: find, and the "contains" it decides. */
module Strings {
  import opened ControlCommon

  /** `pattern` occurs in `s` starting at position i. */
  predicate MatchesAt(s: string, pattern: string, i: nat) {
    i + |pattern| <= |s| && s[i..i + |pattern|] == pattern
  }

  /** `pattern` occurs somewhere in `s`. */
  ghost predicate Contains(s: string, pattern: string) {
    exists i: nat :: MatchesAt(s, pattern, i)
  }

  /** std::string::find from position `from`: the first position at or after `from` where the
      pattern occurs, or None for npos. */
  function FindFrom(s: string, pattern: string, from: nat): (r: Option<nat>)
    requires from <= |s|
    ensures r.Some? ==> from <= r.value && MatchesAt(s, pattern, r.value)
    ensures r.Some? ==> forall k: nat :: from <= k < r.value ==> !MatchesAt(s, pattern, k)
    ensures r.None? ==> forall k: nat :: from <= k ==> !MatchesAt(s, pattern, k)
    decreases |s| - from
  {
    if MatchesAt(s, pattern, from) then Some(from)
    else if from == |s| then None
    else FindFrom(s, pattern, from + 1)
  }

  function Find(s: string, pattern: string): Option<nat> {
    FindFrom(s, pattern, 0)
  }

  /** find returns a position exactly when the pattern occurs, and that position is its first
      occurrence. */
  lemma FindDecidesContains(s: string, pattern: string)
    ensures Find(s, pattern).Some? <==> Contains(s, pattern)
    ensures Find(s, pattern).Some? ==> forall k: nat :: k < Find(s, pattern).value ==> !MatchesAt(s, pattern, k)
  {
    if Find(s, pattern).Some? {
      assert MatchesAt(s, pattern, Find(s, pattern).value);
    }
  }

  /** Names of the reference markers contain "_ref". */
  const ReferenceTag: string := "_ref"

  predicate IsReferenceMarker(name: string) {
    Find(name, ReferenceTag).Some?
  }
}
