/**
 * Literal substring search: the meaning of `/p/.test(id)` when the regular
 * expression `p` is made only of literal characters (an escaped `\.` or `\/`
 * is the literal character itself). Such a regular expression has no anchors,
 * flags or repetition, so it matches exactly when `p` occurs somewhere in `id`.
 */
module Substring {

  /** `sub` occurs in `s` starting at position `i`. */
  predicate OccursAt(s: string, sub: string, i: int) {
    0 <= i && i + |sub| <= |s| && s[i..i + |sub|] == sub
  }

  /** `sub` occurs somewhere in `s`: the reference meaning of a literal regex test. */
  ghost predicate Occurs(s: string, sub: string) {
    exists i :: OccursAt(s, sub, i)
  }

  /** `sub` occurs in `s` at position `from` or later. */
  ghost predicate OccursFrom(s: string, sub: string, from: nat) {
    exists i :: from <= i && OccursAt(s, sub, i)
  }

  /**
   * The scan a regex engine performs for a literal pattern: try each start
   * position from `from` rightwards and succeed at the first one where `sub`
   * matches.
   */
  function ContainsFrom(s: string, sub: string, from: nat): (found: bool)
    ensures found <==> OccursFrom(s, sub, from)
    decreases |s| - from
  {
    if from + |sub| > |s| then
      false
    else if s[from..from + |sub|] == sub then
      assert OccursAt(s, sub, from);
      true
    else
      ContainsFrom(s, sub, from + 1)
  }

  /** `/sub/.test(s)`: the scan from the first position. */
  function Contains(s: string, sub: string): (found: bool)
    ensures found <==> Occurs(s, sub)
  {
    ContainsFrom(s, sub, 0)
  }

  /** A substring of a substring is a substring. */
  lemma {:induction false} ContainsTransitive(s: string, t: string, u: string)
    requires Contains(s, t) && Contains(t, u)
    ensures Contains(s, u)
  {
    var i :| OccursAt(s, t, i);
    var j :| OccursAt(t, u, j);
    assert t == s[i..i + |t|];
    forall k | 0 <= k < |u| ensures s[i + j..i + j + |u|][k] == u[k] {
      assert u[k] == t[j + k] == s[i + j + k];
    }
    assert OccursAt(s, u, i + j);
  }

  /** A string contains every slice of itself. */
  lemma ContainsSlice(s: string, i: nat, j: nat)
    requires i <= j <= |s|
    ensures Contains(s, s[i..j])
  {
    assert OccursAt(s, s[i..j], i);
  }

  /** A string cannot contain a pattern one of whose characters it lacks. */
  lemma MissingChar(s: string, sub: string, c: char)
    requires c in sub && c !in s
    ensures !Contains(s, sub)
  {
  }

  /**
   * Skipping a piece of the subject: when the pattern mismatches the start
   * of `a` at some position `k` and its first character does not occur later
   * in `a`, no match can start inside `a`, so searching `a + b` is searching
   * `b`.
   */
  lemma SkipPiece(a: string, b: string, sub: string, k: nat)
    requires k < |a| && k < |sub| && a[k] != sub[k]
    requires sub[0] !in a[1..]
    ensures Contains(a + b, sub) <==> Contains(b, sub)
  {
    var s := a + b;
    if Contains(s, sub) {
      var i :| OccursAt(s, sub, i);
      assert s[i..i + |sub|] == b[i - |a|..i - |a| + |sub|];
      assert OccursAt(b, sub, i - |a|);
    }
    if Contains(b, sub) {
      var j :| OccursAt(b, sub, j);
      assert s[|a| + j..|a| + j + |sub|] == b[j..j + |sub|];
      assert OccursAt(s, sub, |a| + j);
    }
  }
}
