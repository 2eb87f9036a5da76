/**
 * The JavaScript string operations the middleware relies on: `startsWith`,
 * `endsWith`, `replace` with a string pattern (with the first-occurrence
 * search it performs), and the `[...].some((p) => s.startsWith(p))` idiom.
 */
module Strings {

  datatype Option<T> = None | Some(value: T)

  /** `s.startsWith(prefix)`; every string starts with "". */
  predicate StartsWith(s: string, prefix: string) {
    |prefix| <= |s| && s[..|prefix|] == prefix
  }

  /** `s.endsWith(suffix)`. */
  predicate EndsWith(s: string, suffix: string) {
    |suffix| <= |s| && s[|s| - |suffix|..] == suffix
  }

  /** `pat` occurs in `s` starting at index `k`. */
  predicate OccursAt(s: string, pat: string, k: nat) {
    k + |pat| <= |s| && s[k..k + |pat|] == pat
  }

  /**
   * The first occurrence of `pat` at or after `from`, or `None`: the search
   * `replace` performs from 0. For `from <= |s|` it agrees with
   * `s.indexOf(pat, from)`, `None` standing for -1 (JavaScript clamps a larger `from`).
   */
  function IndexOfFrom(s: string, pat: string, from: nat): (r: Option<nat>)
    decreases |s| - from
    ensures r.Some? ==> from <= r.value && OccursAt(s, pat, r.value)
    ensures r.Some? ==> forall j: nat :: from <= j < r.value ==> !OccursAt(s, pat, j)
    ensures r.None? ==> forall j: nat :: from <= j ==> !OccursAt(s, pat, j)
  {
    if from + |pat| > |s| then None
    else if s[from..from + |pat|] == pat then Some(from)
    else IndexOfFrom(s, pat, from + 1)
  }

  /**
   * `s.replace(pat, rep)` for a string pattern: only the first occurrence is
   * replaced, and `s` is returned unchanged when `pat` does not occur.
   * (Replacement patterns such as `$&` are not interpreted.)
   */
  function ReplaceFirst(s: string, pat: string, rep: string): (r: string)
    ensures (forall j: nat :: !OccursAt(s, pat, j)) ==> r == s
    ensures (exists j: nat :: OccursAt(s, pat, j)) ==>
      exists k: nat :: && OccursAt(s, pat, k)
                       && (forall j: nat :: j < k ==> !OccursAt(s, pat, j))
                       && r == s[..k] + rep + s[k + |pat|..]
    ensures (exists j: nat :: OccursAt(s, pat, j)) ==> |r| == |s| - |pat| + |rep|
  {
    match IndexOfFrom(s, pat, 0)
    case None => s
    case Some(k) => s[..k] + rep + s[k + |pat|..]
  }

  /** When `s` begins with `pat`, the first occurrence is the prefix itself. */
  lemma ReplaceFirstAtStart(s: string, pat: string, rep: string)
    requires StartsWith(s, pat)
    ensures ReplaceFirst(s, pat, rep) == rep + s[|pat|..]
  {
    assert OccursAt(s, pat, 0);
    var k: nat :| && OccursAt(s, pat, k)
                  && (forall j: nat :: j < k ==> !OccursAt(s, pat, j))
                  && ReplaceFirst(s, pat, rep) == s[..k] + rep + s[k + |pat|..];
    assert k == 0;
  }

  /** `prefixes.some((p) => s.startsWith(p))`. */
  function SomeStartsWith(s: string, prefixes: seq<string>): (b: bool)
    ensures b <==> exists i :: 0 <= i < |prefixes| && StartsWith(s, prefixes[i])
  {
    if prefixes == [] then false
    else if StartsWith(s, prefixes[0]) then true
    else
      var b := SomeStartsWith(s, prefixes[1..]);
      assert forall i :: 1 <= i < |prefixes| ==> prefixes[i] == prefixes[1..][i - 1];
      b
  }

  /** A one-character pattern occurs at `k` exactly when that character is at `k`. */
  lemma OccursAtChar(s: string, c: char, k: nat)
    ensures OccursAt(s, [c], k) <==> k < |s| && s[k] == c
  {
    if k < |s| {
      assert s[k..k + 1] == [s[k]];
    }
  }
}
