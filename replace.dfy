/**
 * `s.replace(/pat/g, rep)` for a regular expression that matches one literal string and has
 * no capture groups: matches are found left to right without overlapping, and the
 * replacement text is expanded as ECMA-262's GetSubstitution does.
 */
module Replace {
  import opened Text

  /**
   * GetSubstitution for a match without captures: `$$` inserts `$`, `$&` the match,
   * `` $` `` the text before the match and `$'` the text after it; every other
   * character, and every other `$` sequence (`$1`, `$<`, a lone `$`), is copied.
   */
  function Expand(rep: string, matched: string, before: string, after: string): string
    decreases |rep|
  {
    if rep == [] then []
    else if rep[0] == '$' && |rep| >= 2 && rep[1] in "$&`'" then
      var inserted := match rep[1]
        case '$' => "$"
        case '&' => matched
        case '`' => before
        case _ => after;
      inserted + Expand(rep[2..], matched, before, after)
    else [rep[0]] + Expand(rep[1..], matched, before, after)
  }

  /** A replacement text without `$` is inserted as it is. */
  lemma {:induction false} ExpandPlain(rep: string, matched: string, before: string, after: string)
    requires '$' !in rep
    ensures Expand(rep, matched, before, after) == rep
  {
    if rep != [] {
      assert '$' !in rep[1..];
      ExpandPlain(rep[1..], matched, before, after);
    }
  }

  /**
   * The global replace, with `done` the text already scanned and `rest` the text still to
   * scan: each match is replaced by the expansion of `rep`, and scanning resumes after it.
   */
  function ReplaceFrom(done: string, rest: string, pat: string, rep: string): string
    requires |pat| > 0
    decreases |rest|
  {
    if |rest| < |pat| then rest
    else if rest[..|pat|] == pat then
      Expand(rep, pat, done, rest[|pat|..]) + ReplaceFrom(done + pat, rest[|pat|..], pat, rep)
    else [rest[0]] + ReplaceFrom(done + [rest[0]], rest[1..], pat, rep)
  }

  /** `s.replace(/pat/g, rep)` */
  function ReplaceAll(s: string, pat: string, rep: string): string
    requires |pat| > 0
  {
    ReplaceFrom([], s, pat, rep)
  }

  /**
   * Textual substitution of `rep` for every non-overlapping occurrence of `pat`, found
   * left to right: the meaning of the global replace when `rep` holds no `$`.
   */
  function Substitute(s: string, pat: string, rep: string): string
    requires |pat| > 0
    decreases |s|
  {
    if |s| < |pat| then s
    else if s[..|pat|] == pat then rep + Substitute(s[|pat|..], pat, rep)
    else [s[0]] + Substitute(s[1..], pat, rep)
  }

  /** Without `$` in the replacement, the global replace is plain substitution. */
  lemma {:induction false} ReplaceIsSubstitute(done: string, rest: string, pat: string, rep: string)
    requires |pat| > 0 && '$' !in rep
    ensures ReplaceFrom(done, rest, pat, rep) == Substitute(rest, pat, rep)
    decreases |rest|
  {
    if |rest| < |pat| {
    } else if rest[..|pat|] == pat {
      ExpandPlain(rep, pat, done, rest[|pat|..]);
      ReplaceIsSubstitute(done + pat, rest[|pat|..], pat, rep);
    } else {
      ReplaceIsSubstitute(done + [rest[0]], rest[1..], pat, rep);
    }
  }

  /** An occurrence in the tail of a string is an occurrence in the string. */
  lemma TailOccurrence(s: string, p: string)
    requires s != [] && Contains(s[1..], p)
    ensures Contains(s, p)
  {
    var j :| 0 <= j <= |s[1..]| - |p| && OccursAt(s[1..], p, j);
    assert s[j + 1..j + 1 + |p|] == s[1..][j..j + |p|];
    assert OccursAt(s, p, j + 1);
  }

  /** A string in which `pat` does not occur is left as it is. */
  lemma {:induction false} ReplaceWithoutMatch(done: string, rest: string, pat: string, rep: string)
    requires |pat| > 0 && !Contains(rest, pat)
    ensures ReplaceFrom(done, rest, pat, rep) == rest
    decreases |rest|
  {
    if |rest| >= |pat| {
      assert !OccursAt(rest, pat, 0);
      assert rest[..|pat|] != pat;
      if Contains(rest[1..], pat) {
        TailOccurrence(rest, pat);
      }
      ReplaceWithoutMatch(done + [rest[0]], rest[1..], pat, rep);
    }
  }

  /** Replacing a pattern that does not occur changes nothing, whatever the replacement. */
  lemma ReplaceAbsent(s: string, pat: string, rep: string)
    requires |pat| > 0 && !Contains(s, pat)
    ensures ReplaceAll(s, pat, rep) == s
  {
    ReplaceWithoutMatch([], s, pat, rep);
  }
}
