/**
 * The two JavaScript string built-ins the logger relies on:
 * `String.prototype.replace` called with a global regular expression whose
 * source is a plain literal (`/{prefix}/g`, `/{message}/g`) and a replacement
 * string, and `Array.prototype.join` over strings.
 *
 * Replacement is left to right and non-overlapping, and the replacement string
 * is expanded as ECMAScript's GetSubstitution does for a pattern without
 * capture groups.
 */
module JsString {

  /** `pat` occurs in `s` starting at index `i`. */
  predicate OccursAt(s: string, pat: string, i: nat) {
    i + |pat| <= |s| && s[i..i + |pat|] == pat
  }

  /** `pat` occurs somewhere in `s`. */
  predicate Contains(s: string, pat: string) {
    exists i: nat | i <= |s| :: OccursAt(s, pat, i)
  }

  /**
   * The text inserted for one match. `before` and `after` are the parts of the
   * whole subject string before and after the match. `$$` gives `$`, `$&` the
   * match, `` $` `` the text before it and `$'` the text after it; with no
   * capture groups every other `$` (`$1`, `$<`, a trailing `$`) stays literal.
   */
  function Expand(rep: string, matched: string, before: string, after: string): (r: string)
    ensures '$' !in rep ==> r == rep
    decreases |rep|
  {
    if |rep| == 0 then ""
    else if rep[0] == '$' && |rep| >= 2 && rep[1] in "$&`'" then
      var piece := match rep[1]
        case '$' => "$"
        case '&' => matched
        case '`' => before
        case _ => after;
      piece + Expand(rep[2..], matched, before, after)
    else
      assert '$' !in rep ==> '$' !in rep[1..] by {
        forall c | c in rep[1..] ensures c in rep { }
      }
      [rep[0]] + Expand(rep[1..], matched, before, after)
  }

  /**
   * The scan of a global replace from index `i` of the subject `s`: each
   * occurrence of `pat` is replaced, the scan resumes after it, and every other
   * character is copied. With a replacement that holds no `$` this is the
   * literal substitution `Substitute` of the rest of the subject.
   */
  function ReplaceFrom(s: string, pat: string, rep: string, i: nat): (r: string)
    requires pat != [] && i <= |s|
    ensures '$' !in rep ==> r == Substitute(s[i..], pat, rep)
    decreases |s| - i
  {
    if i + |pat| > |s| then s[i..]
    else if OccursAt(s, pat, i) then
      SubstituteAtMatch(s, pat, rep, i);
      Expand(rep, pat, s[..i], s[i + |pat|..]) + ReplaceFrom(s, pat, rep, i + |pat|)
    else
      SubstituteAtMiss(s, pat, rep, i);
      [s[i]] + ReplaceFrom(s, pat, rep, i + 1)
  }

  /**
   * `s.replace(/pat/g, rep)` for a literal pattern `pat`: when `rep` holds no
   * `$`, every occurrence, left to right and without overlap, is replaced by
   * `rep` as it is.
   */
  function ReplaceAll(s: string, pat: string, rep: string): (r: string)
    requires pat != []
    ensures '$' !in rep ==> r == Substitute(s, pat, rep)
  {
    assert s[0..] == s;
    ReplaceFrom(s, pat, rep, 0)
  }

  /** A subject with no match from index `i` on is copied unchanged. */
  lemma {:induction false} ReplaceFromNoMatch(s: string, pat: string, rep: string, i: nat)
    requires pat != [] && i <= |s|
    requires forall j: nat :: i <= j ==> !OccursAt(s, pat, j)
    ensures ReplaceFrom(s, pat, rep, i) == s[i..]
    decreases |s| - i
  {
    if i + |pat| <= |s| {
      ReplaceFromNoMatch(s, pat, rep, i + 1);
      assert s[i..] == [s[i]] + s[i + 1..];
    }
  }

  /** Replacing a pattern that does not occur leaves the subject unchanged. */
  lemma ReplaceAllNoMatch(s: string, pat: string, rep: string)
    requires pat != []
    ensures !Contains(s, pat) ==> ReplaceAll(s, pat, rep) == s
  {
    if Contains(s, pat) { return; }
    forall j: nat ensures !OccursAt(s, pat, j) {
      if j <= |s| { assert !OccursAt(s, pat, j); }
    }
    ReplaceFromNoMatch(s, pat, rep, 0);
    assert s[0..] == s;
  }

  /**
   * Reference definition: plain left-to-right, non-overlapping replacement of
   * every occurrence of `pat` by the literal text `rep`.
   */
  function Substitute(s: string, pat: string, rep: string): string
    requires pat != []
    decreases |s|
  {
    if |s| < |pat| then s
    else if s[..|pat|] == pat then rep + Substitute(s[|pat|..], pat, rep)
    else [s[0]] + Substitute(s[1..], pat, rep)
  }

  /** At a match, a replacement holding no `$` is inserted as it is. */
  lemma ReplaceAtMatch(s: string, pat: string, rep: string, i: nat)
    requires pat != [] && OccursAt(s, pat, i) && '$' !in rep
    ensures ReplaceFrom(s, pat, rep, i) == rep + ReplaceFrom(s, pat, rep, i + |pat|)
  {
    assert Expand(rep, pat, s[..i], s[i + |pat|..]) == rep;
  }

  /** At a match, the substitution of the rest starts with `rep` and resumes after the match. */
  lemma SubstituteAtMatch(s: string, pat: string, rep: string, i: nat)
    requires pat != [] && OccursAt(s, pat, i)
    ensures Substitute(s[i..], pat, rep) == rep + Substitute(s[i + |pat|..], pat, rep)
  {
    var t := s[i..];
    assert t[..|pat|] == pat && t[|pat|..] == s[i + |pat|..];
  }

  /** Where no match starts, the substitution of the rest copies one character. */
  lemma SubstituteAtMiss(s: string, pat: string, rep: string, i: nat)
    requires pat != [] && i + |pat| <= |s| && !OccursAt(s, pat, i)
    ensures Substitute(s[i..], pat, rep) == [s[i]] + Substitute(s[i + 1..], pat, rep)
  {
    var t := s[i..];
    assert t[..|pat|] == s[i..i + |pat|];
    assert t[1..] == s[i + 1..];
  }

  /** A stretch of the subject without a match is copied unchanged. */
  lemma {:induction false} ReplaceSkip(s: string, pat: string, rep: string, i: nat, k: nat)
    requires pat != [] && i <= k <= |s|
    requires forall j: nat :: i <= j < k ==> !OccursAt(s, pat, j)
    ensures ReplaceFrom(s, pat, rep, i) == s[i..k] + ReplaceFrom(s, pat, rep, k)
    decreases k - i
  {
    if i < k {
      if i + |pat| > |s| {
        assert s[i..] == s[i..k] + s[k..];
      } else {
        ReplaceSkip(s, pat, rep, i + 1, k);
        assert s[i..k] == [s[i]] + s[i + 1..k];
      }
    }
  }

  /** `parts.join(sep)`. */
  function Join(parts: seq<string>, sep: string): (r: string)
    ensures |parts| == 1 ==> r == parts[0]
  {
    if |parts| == 0 then ""
    else if |parts| == 1 then parts[0]
    else parts[0] + sep + Join(parts[1..], sep)
  }

  /** Joining two non-empty lists puts one separator between their joins. */
  lemma {:induction false} JoinAppend(a: seq<string>, b: seq<string>, sep: string)
    requires a != [] && b != []
    ensures Join(a + b, sep) == Join(a, sep) + sep + Join(b, sep)
    decreases |a|
  {
    if |a| == 1 {
      assert (a + b)[1..] == b;
    } else {
      assert (a + b)[1..] == a[1..] + b;
      JoinAppend(a[1..], b, sep);
    }
  }
}
