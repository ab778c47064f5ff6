/**
 * The two Python string operations the plan engine relies on: the
 * substring test `pat in s` and `s.replace(target, replacement, 1)`,
 * both built on a leftmost-occurrence search.
 */
module Strings {
  import opened Wrappers

  /** `pat` occurs in `s` starting at index `i`. */
  predicate OccursAt(s: string, pat: string, i: nat) {
    i + |pat| <= |s| && s[i..i + |pat|] == pat
  }

  /** The leftmost occurrence of `pat` in `s` at or after index `from`. */
  function FindFrom(s: string, pat: string, from: nat): (r: Option<nat>)
    requires from <= |s|
    ensures r.Some? ==> from <= r.value && OccursAt(s, pat, r.value)
    ensures r.Some? ==> forall j :: from <= j < r.value ==> !OccursAt(s, pat, j)
    ensures r.None? ==> forall j :: from <= j ==> !OccursAt(s, pat, j)
    decreases |s| - from
  {
    if OccursAt(s, pat, from) then Some(from)
    else if from == |s| then None
    else FindFrom(s, pat, from + 1)
  }

  /** Python's `pat in s` on strings: a substring test. */
  predicate Contains(s: string, pat: string) {
    FindFrom(s, pat, 0).Some?
  }

  /** The substring test holds exactly when the pattern occurs somewhere. */
  lemma ContainsOccurrence(s: string, pat: string)
    ensures Contains(s, pat) <==> exists i: nat :: OccursAt(s, pat, i)
  {
  }

  /**
   * Python's `s.replace(target, replacement, 1)`: the FIRST occurrence of
   * `target`, wherever it stands in `s`, is replaced; without one, `s`
   * is returned unchanged.
   */
  function ReplaceFirst(s: string, target: string, replacement: string): (r: string)
    ensures (forall i: nat :: !OccursAt(s, target, i)) ==> r == s
    ensures forall i: nat ::
              OccursAt(s, target, i) && (forall j: nat :: j < i ==> !OccursAt(s, target, j)) ==>
                r == s[..i] + replacement + s[i + |target|..]
  {
    match FindFrom(s, target, 0)
    case None => s
    case Some(i) => s[..i] + replacement + s[i + |target|..]
  }
}
