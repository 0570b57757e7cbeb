/**
 * The six case-insensitive regular expressions the logging service flags request input
 * with, and what `preg_match` decides for each of them: whether the pattern matches
 * anywhere in the subject. Every pattern has the shape `keyword gap keyword`.
 */
module SqlPatterns {
  import opened Text

  /** PCRE's `\s`: space, tab, line feed, vertical tab, form feed and carriage return. */
  predicate IsSpace(c: char)
  {
    c == ' ' || c == '\t' || c == '\n' || c as int == 11 || c as int == 12 || c == '\r'
  }

  predicate AllSpace(s: string)
  {
    forall i :: 0 <= i < |s| ==> IsSpace(s[i])
  }

  /** What may stand between the two keywords of a pattern. */
  datatype Gap =
    | Spaces(atLeastOne: bool)   // `\s+` when atLeastOne, `\s*` otherwise
    | SpacesThenLine             // `\s+.*`: whitespace, then anything up to a line feed

  /** `head gap tail`, compared without regard to ASCII case (the `/i` flag). */
  datatype Pattern = Pattern(head: string, gap: Gap, tail: string)

  /**
   * `union\s+select`, `drop\s+table`, `delete\s+from`, `insert\s+into`, `update\s+.*set`
   * and `exec\s*\(`, in the order they are tried.
   */
  const Patterns: seq<Pattern> := [
    Pattern("union", Spaces(true), "select"),
    Pattern("drop", Spaces(true), "table"),
    Pattern("delete", Spaces(true), "from"),
    Pattern("insert", Spaces(true), "into"),
    Pattern("update", SpacesThenLine, "set"),
    Pattern("exec", Spaces(false), "(")
  ]

  /** The text between the keywords is one the gap accepts (`.` never matches a line feed). */
  predicate GapAccepts(g: Gap, s: string)
  {
    match g
    case Spaces(atLeastOne) => AllSpace(s) && (atLeastOne ==> s != [])
    case SpacesThenLine => exists m | 1 <= m <= |s| :: AllSpace(s[..m]) && '\n' !in s[m..]
  }

  /** `t` occurs at index `i` of `s` up to ASCII case. */
  predicate OccursAtIgnoringCase(s: string, t: string, i: int)
  {
    0 <= i && i + |t| <= |s| && LowerStr(s[i..i + |t|]) == LowerStr(t)
  }

  /** `p` matches `s` with its head starting at `i` and its tail starting at `b`. */
  predicate MatchSpan(s: string, p: Pattern, i: int, b: int)
  {
    && OccursAtIgnoringCase(s, p.head, i)
    && i + |p.head| <= b <= |s|
    && GapAccepts(p.gap, s[i + |p.head|..b])
    && OccursAtIgnoringCase(s, p.tail, b)
  }

  /** `preg_match($p, $s) === 1`: the pattern matches somewhere in the subject. */
  predicate Matches(s: string, p: Pattern)
  {
    exists i, b | 0 <= i <= b <= |s| :: MatchSpan(s, p, i, b)
  }

  /** Some pattern of the list matches: what `detectSqlInjection` reports. */
  predicate Flagged(s: string)
  {
    exists k | 0 <= k < |Patterns| :: Matches(s, Patterns[k])
  }

  // ---------------------------------------------------------------------------
  // What the patterns catch and what they cannot

  /**
   * The keywords, written in any case and separated by whitespace the gap accepts, are
   * caught whatever surrounds them.
   */
  lemma PairMatches(pre: string, head: string, sep: string, tail: string, post: string, p: Pattern)
    requires LowerStr(head) == LowerStr(p.head) && LowerStr(tail) == LowerStr(p.tail)
    requires GapAccepts(p.gap, sep)
    ensures Matches(pre + head + sep + tail + post, p)
  {
    var s := pre + head + sep + tail + post;
    var i := |pre|;
    var b := |pre| + |head| + |sep|;
    assert s[i..i + |p.head|] == head;
    assert s[i + |p.head|..b] == sep;
    assert s[b..b + |p.tail|] == tail;
    assert MatchSpan(s, p, i, b);
  }

  lemma PaddedSlice(pre: string, s: string, post: string, a: int, b: int)
    requires 0 <= a <= b <= |s|
    ensures (pre + s + post)[|pre| + a..|pre| + b] == s[a..b]
  {
    var t := pre + s + post;
    forall k | 0 <= k < b - a ensures t[|pre| + a..|pre| + b][k] == s[a..b][k] {
      assert t[|pre| + a + k] == s[a + k];
    }
  }

  lemma ShiftedSpan(pre: string, s: string, post: string, p: Pattern, i: int, b: int)
    requires MatchSpan(s, p, i, b)
    ensures MatchSpan(pre + s + post, p, |pre| + i, |pre| + b)
  {
    PaddedSlice(pre, s, post, i, i + |p.head|);
    PaddedSlice(pre, s, post, i + |p.head|, b);
    PaddedSlice(pre, s, post, b, b + |p.tail|);
  }

  /** Surrounding a matching text with more text never hides the match. */
  lemma PaddingKeepsMatch(pre: string, s: string, post: string, p: Pattern)
    requires Matches(s, p)
    ensures Matches(pre + s + post, p)
  {
    var i, b :| 0 <= i <= b <= |s| && MatchSpan(s, p, i, b);
    ShiftedSpan(pre, s, post, p, i, b);
    assert 0 <= |pre| + i <= |pre| + b <= |pre + s + post|;
  }

  /** A pattern cannot match a text that lacks its first keyword in any case. */
  lemma NoHeadNoMatch(s: string, p: Pattern)
    requires !ContainsIgnoringCase(s, p.head)
    ensures !Matches(s, p)
  {
    if Matches(s, p) {
      var i, b :| 0 <= i <= b <= |s| && MatchSpan(s, p, i, b);
      assert LowerStr(s)[i..i + |p.head|] == LowerStr(s[i..i + |p.head|]);
      assert OccursAt(LowerStr(s), LowerStr(p.head), i);
    }
  }

  /** Input without any of the six first keywords is never flagged. */
  lemma NoKeywordNotFlagged(s: string)
    requires forall k | 0 <= k < |Patterns| :: !ContainsIgnoringCase(s, Patterns[k].head)
    ensures !Flagged(s)
  {
    forall k | 0 <= k < |Patterns| ensures !Matches(s, Patterns[k]) {
      NoHeadNoMatch(s, Patterns[k]);
    }
  }

  /** `.*` lets `update` and `set` lie far apart: ordinary prose is flagged as well. */
  lemma ProseIsFlagged()
    ensures Flagged("Please update your settings")
  {
    var s := "Please update your settings";
    var p := Patterns[4];
    assert GapAccepts(p.gap, " your ") by {
      assert AllSpace(" your "[..1]) && '\n' !in " your "[1..];
    }
    assert s == "Please " + "update" + " your " + "set" + "tings";
    PairMatches("Please ", "update", " your ", "set", "tings", p);
  }

  /** The keywords are matched in any case: `UNION SELECT` is caught as `union select`. */
  lemma UpperCaseIsFlagged()
    ensures Flagged("1 UNION SELECT password")
  {
    var p := Patterns[0];
    assert LowerStr("UNION") == "union" by {
      assert forall k | 0 <= k < 5 :: LowerStr("UNION")[k] == "union"[k];
    }
    assert LowerStr("SELECT") == "select" by {
      assert forall k | 0 <= k < 6 :: LowerStr("SELECT")[k] == "select"[k];
    }
    assert GapAccepts(p.gap, " ");
    assert "1 UNION SELECT password" == "1 " + "UNION" + " " + "SELECT" + " password";
    PairMatches("1 ", "UNION", " ", "SELECT", " password", p);
  }
}
