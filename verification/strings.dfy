/** String helpers with JavaScript's semantics: `startsWith` and the
    first-occurrence `replace(pattern, replacement)` with string arguments. */
module Strings {
  import opened Outcomes

  predicate StartsWith(s: string, prefix: string) {
    |prefix| <= |s| && s[..|prefix|] == prefix
  }

  /** `pat` occurs in `s` starting at index `i`. */
  predicate OccursAt(s: string, pat: string, i: nat) {
    i + |pat| <= |s| && s[i..i + |pat|] == pat
  }

  predicate Contains(s: string, pat: string) {
    exists i: nat :: i <= |s| && OccursAt(s, pat, i)
  }

  /** `i` is the leftmost occurrence of `pat` in `s`. */
  predicate FirstOccurrence(s: string, pat: string, i: nat) {
    OccursAt(s, pat, i) && forall j: nat :: j < i ==> !OccursAt(s, pat, j)
  }

  /** Left-to-right search for `pat` at positions `from` and later. */
  function IndexFrom(s: string, pat: string, from: nat): (r: Option<nat>)
    ensures r.Some? ==> from <= r.value && OccursAt(s, pat, r.value)
    ensures forall j: nat :: from <= j && OccursAt(s, pat, j) ==> r.Some? && r.value <= j
    decreases |s| - from
  {
    if from + |pat| > |s| then None
    else if s[from..from + |pat|] == pat then Some(from)
    else IndexFrom(s, pat, from + 1)
  }

  /** `String.prototype.indexOf`: the leftmost occurrence, if any. */
  function IndexOf(s: string, pat: string): (r: Option<nat>)
    ensures r.Some? ==> FirstOccurrence(s, pat, r.value)
    ensures r.None? <==> !Contains(s, pat)
  {
    IndexFrom(s, pat, 0)
  }

  /** `s.replace(pat, rep)` for a string pattern: only the leftmost
      occurrence is replaced. */
  function ReplaceFirst(s: string, pat: string, rep: string): (r: string)
    ensures !Contains(s, pat) ==> r == s
  {
    match IndexOf(s, pat)
    case None => s
    case Some(i) => s[..i] + rep + s[i + |pat|..]
  }

  /** `replace` against its reference meaning: a string without `pat` is
      returned unchanged, otherwise exactly the leftmost occurrence is
      rewritten. */
  lemma ReplaceFirstMeaning(s: string, pat: string, rep: string, i: nat)
    ensures !Contains(s, pat) ==> ReplaceFirst(s, pat, rep) == s
    ensures FirstOccurrence(s, pat, i) ==> ReplaceFirst(s, pat, rep) == s[..i] + rep + s[i + |pat|..]
  {
    if FirstOccurrence(s, pat, i) {
      var k := IndexOf(s, pat).value;
      assert !(k < i) && !(i < k);
    }
  }

  /** A pattern at the very front is the one `replace` rewrites, whatever
      follows it — later occurrences inside `rest` are kept. */
  lemma ReplaceFirstAtFront(pat: string, rest: string, rep: string)
    ensures ReplaceFirst(pat + rest, pat, rep) == rep + rest
  {
    var s := pat + rest;
    assert s[0..|pat|] == pat;
    assert FirstOccurrence(s, pat, 0);
    ReplaceFirstMeaning(s, pat, rep, 0);
    assert s[|pat|..] == rest;
  }

  lemma StartsWithContains(s: string, prefix: string)
    ensures StartsWith(s, prefix) ==> Contains(s, prefix)
  {
    if StartsWith(s, prefix) {
      assert OccursAt(s, prefix, 0);
    }
  }
}
