/**
 * Substring search as `std::string::find` does it, and the last occurrence
 * at or after a position, which is where a greedy `.*` followed by a fixed
 * word stops matching.
 */
module StringSearch {
  import opened Common

  /** sub occurs in s starting at k. */
  predicate OccursAt(s: string, sub: string, k: int) {
    0 <= k && k + |sub| <= |s| && s[k..k + |sub|] == sub
  }

  predicate Contains(s: string, sub: string) {
    exists k | 0 <= k <= |s| :: OccursAt(s, sub, k)
  }

  /** The first occurrence of sub at or after i. */
  function IndexFrom(s: string, sub: string, i: nat): (r: Option<nat>)
    ensures r.Some? ==> i <= r.value && OccursAt(s, sub, r.value)
    ensures r.Some? ==> forall k :: i <= k < r.value ==> !OccursAt(s, sub, k)
    ensures r.None? ==> forall k :: i <= k ==> !OccursAt(s, sub, k)
    decreases |s| - i
  {
    if i + |sub| > |s| then None
    else if s[i..i + |sub|] == sub then Some(i)
    else IndexFrom(s, sub, i + 1)
  }

  /** `s.find(sub)`: the first occurrence, or none (`npos`). */
  function IndexOf(s: string, sub: string): (r: Option<nat>)
    ensures r.Some? <==> Contains(s, sub)
    ensures r.Some? ==> OccursAt(s, sub, r.value) && forall k :: 0 <= k < r.value ==> !OccursAt(s, sub, k)
  {
    IndexFrom(s, sub, 0)
  }

  /** The last occurrence of sub starting in [lo, hi). */
  function LastIndexIn(s: string, sub: string, lo: nat, hi: int): (r: Option<nat>)
    ensures r.Some? ==> lo <= r.value < hi && OccursAt(s, sub, r.value)
    ensures r.Some? ==> forall k :: r.value < k < hi ==> !OccursAt(s, sub, k)
    ensures r.None? ==> forall k :: lo <= k < hi ==> !OccursAt(s, sub, k)
    decreases hi - lo
  {
    if hi <= lo then None
    else if OccursAt(s, sub, hi - 1) then Some(hi - 1)
    else LastIndexIn(s, sub, lo, hi - 1)
  }

  /** A one-character word occurs exactly where that character is. */
  lemma OccursAtChar(s: string, c: char, k: int)
    ensures OccursAt(s, [c], k) <==> 0 <= k < |s| && s[k] == c
  {
    if 0 <= k < |s| && s[k] == c {
      assert s[k..k + 1] == [c];
    }
  }

  /** `s.find(c)` for one character: its first position. */
  lemma IndexOfChar(s: string, c: char)
    ensures var r := IndexOf(s, [c]);
      (r.Some? ==> r.value < |s| && s[r.value] == c && forall k :: 0 <= k < r.value ==> s[k] != c) &&
      (r.None? ==> forall k :: 0 <= k < |s| ==> s[k] != c)
  {
    var r := IndexOf(s, [c]);
    forall k | 0 <= k < |s|
      ensures (r.None? || k < r.value) ==> s[k] != c
    {
      OccursAtChar(s, c, k);
    }
    if r.Some? {
      OccursAtChar(s, c, r.value);
    }
  }
}
