/** Prefix and substring tests on strings, the two string predicates both
    access policies are built from: `str::starts_with` / `str.startswith`
    for prefixes and Python's `t in s` for substrings. */
module Strings {

  /** `p` is a prefix of `s`. */
  predicate StartsWith(s: string, p: string) {
    |p| <= |s| && s[..|p|] == p
  }

  /** `t` occurs in `s` beginning at index `i`. */
  predicate OccursAt(s: string, t: string, i: nat) {
    i + |t| <= |s| && s[i..i + |t|] == t
  }

  /** Substring test (`t in s` in Python): tries every start position of `s`
      from left to right. The result agrees with the declarative reading
      "some position of `s` holds a copy of `t`". */
  function Contains(s: string, t: string): (r: bool)
    ensures r <==> exists i: nat :: OccursAt(s, t, i)
    decreases |s|
  {
    if |s| < |t| then
      NoOccurrenceInShorter(s, t);
      false
    else if s[..|t|] == t then
      assert OccursAt(s, t, 0);
      true
    else
      OccursInTail(s, t);
      Contains(s[1..], t)
  }

  /** A string shorter than `t` holds no copy of `t`. */
  lemma NoOccurrenceInShorter(s: string, t: string)
    requires |s| < |t|
    ensures forall i: nat :: !OccursAt(s, t, i)
  {
  }

  /** When `t` is not a prefix of `s`, the occurrences of `t` in `s` are
      exactly those in `s[1..]`, shifted by one. */
  lemma OccursInTail(s: string, t: string)
    requires |t| <= |s| && s[..|t|] != t
    ensures (exists i: nat :: OccursAt(s, t, i)) <==> (exists j: nat :: OccursAt(s[1..], t, j))
  {
    if i: nat :| OccursAt(s, t, i) {
      assert i != 0;
      assert s[1..][i - 1..i - 1 + |t|] == s[i..i + |t|];
      assert OccursAt(s[1..], t, i - 1);
    }
    if j: nat :| OccursAt(s[1..], t, j) {
      assert s[1..][j..j + |t|] == s[j + 1..j + 1 + |t|];
      assert OccursAt(s, t, j + 1);
    }
  }

  /** Two prefixes that differ at a position both cover cannot both be
      prefixes of the same string. */
  lemma PrefixesExclude(s: string, p: string, q: string, k: nat)
    requires k < |p| && k < |q| && p[k] != q[k]
    requires StartsWith(s, p)
    ensures !StartsWith(s, q)
  {
  }
}
