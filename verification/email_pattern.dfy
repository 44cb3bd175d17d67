/**
 * The form's e-mail check: `/\S+@\S+\.\S+/.test(email)`.  The expression is
 * not anchored, so it holds when SOME substring has the shape
 * "non-blank run, '@', non-blank run, '.', non-blank run".  This is far
 * looser than the addr-spec of section 3.4.1 of RFC 5322, and deliberately so.
 */
module EmailPattern {
  import opened JsStrings

  /** `s[a..b]` is a non-empty run of non-white-space characters (one `\S+`). */
  ghost predicate NonBlankRun(s: string, a: int, b: int) {
    0 <= a < b <= |s| && forall m :: a <= m < b ==> !IsWhitespace(s[m])
  }

  /** The expression matches `s[a..e]` with its '@' at `p` and its '.' at `q`. */
  ghost predicate MatchesAt(s: string, a: int, p: int, q: int, e: int) {
    && NonBlankRun(s, a, p)
    && 0 <= p < |s| && s[p] == '@'
    && NonBlankRun(s, p + 1, q)
    && 0 <= q < |s| && s[q] == '.'
    && NonBlankRun(s, q + 1, e)
  }

  /** What `RegExp.prototype.test` answers: a match exists somewhere in `s`. */
  ghost predicate RegexMatches(s: string) {
    exists a, p, q, e :: MatchesAt(s, a, p, q, e)
  }

  /**
   * After an '@' at `p`, a '.' at `q` closes a non-blank run `s[p+1..q]` and
   * is followed by a non-blank character.
   */
  ghost predicate DotAt(s: string, p: int, q: int) {
    && 0 <= p && p + 2 <= q && q + 1 < |s|
    && s[q] == '.'
    && (forall m :: p + 1 <= m < q ==> !IsWhitespace(s[m]))
    && !IsWhitespace(s[q + 1])
  }

  /** The shortest witnesses: one non-blank character either side of '@' ... '.' ... */
  ghost predicate AnchorsAt(s: string, p: int, q: int) {
    && 1 <= p < |s| && s[p] == '@' && !IsWhitespace(s[p - 1])
    && DotAt(s, p, q)
  }

  /** A match exists iff an '@' and a later '.' anchor one. */
  lemma RegexMatchesIffAnchored(s: string)
    ensures RegexMatches(s) <==> exists p, q :: AnchorsAt(s, p, q)
  {
    if RegexMatches(s) {
      var a, p, q, e :| MatchesAt(s, a, p, q, e);
      assert AnchorsAt(s, p, q);
    }
    if exists p, q :: AnchorsAt(s, p, q) {
      var p, q :| AnchorsAt(s, p, q);
      assert MatchesAt(s, p - 1, p, q, q + 2);
    }
  }

  /** Scans for a '.' closing the run that starts after the '@' at `p`. */
  function DotAfter(s: string, p: nat, q: nat): (found: bool)
    requires p < q <= |s|
    requires forall m :: p + 1 <= m < q ==> !IsWhitespace(s[m])
    ensures found <==> exists q' :: q <= q' && DotAt(s, p, q')
    decreases |s| - q
  {
    if q == |s| then false
    else if p + 2 <= q && s[q] == '.' && q + 1 < |s| && !IsWhitespace(s[q + 1]) then
      assert DotAt(s, p, q);
      true
    else if IsWhitespace(s[q]) then false
    else DotAfter(s, p, q + 1)
  }

  /** Scans the positions from `p` on for an anchoring '@'. */
  function AtFrom(s: string, p: nat): (found: bool)
    requires 1 <= p <= |s|
    ensures found <==> exists p', q :: p <= p' && AnchorsAt(s, p', q)
    decreases |s| - p
  {
    if p == |s| then false
    else if s[p] == '@' && !IsWhitespace(s[p - 1]) && DotAfter(s, p, p + 1) then
      ghost var q :| p + 1 <= q && DotAt(s, p, q);
      assert AnchorsAt(s, p, q);
      true
    else AtFrom(s, p + 1)
  }

  /** `/\S+@\S+\.\S+/.test(s)`, decided by one left-to-right scan per '@'. */
  function LooksLikeEmail(s: string): (ok: bool)
    ensures ok <==> RegexMatches(s)
  {
    RegexMatchesIffAnchored(s);
    |s| >= 1 && AtFrom(s, 1)
  }

  /** Concrete answers: a bare name and an empty domain label fail; "jane@x.com" and an embedded address pass. */
  lemma LooksLikeEmailExamples()
    ensures !LooksLikeEmail("jane")
    ensures LooksLikeEmail("jane@x.com")
    ensures LooksLikeEmail(" a@b.c trailing")
    ensures !LooksLikeEmail("a@.c")
  {
    assert AnchorsAt("jane@x.com", 4, 6);
    assert AnchorsAt(" a@b.c trailing", 2, 4);
  }
}
