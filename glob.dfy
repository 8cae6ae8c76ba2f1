/** Shell-style key patterns, as the cache stores evaluate them when keys are
    invalidated by pattern: `*` matches any run of characters (the empty run
    included), `?` matches exactly one character, and every other character
    matches itself, case-sensitively. Bracket classes and backslash escapes
    are not part of this model. */
module Glob {

  predicate IsWildcard(c: char) {
    c == '*' || c == '?'
  }

  /** A pattern with no `*` or `?` in it. */
  predicate Literal(p: string) {
    forall k | 0 <= k < |p| :: !IsWildcard(p[k])
  }

  predicate Match(pat: string, s: string)
    decreases |pat| + |s|
  {
    if |pat| == 0 then |s| == 0
    else if pat[0] == '*' then Match(pat[1..], s) || (|s| > 0 && Match(pat, s[1..]))
    else if pat[0] == '?' then |s| > 0 && Match(pat[1..], s[1..])
    else |s| > 0 && s[0] == pat[0] && Match(pat[1..], s[1..])
  }

  /** A literal pattern matches exactly itself. */
  lemma {:induction false} LiteralMatchesItself(pat: string, s: string)
    requires Literal(pat)
    ensures Match(pat, s) <==> s == pat
    decreases |pat|
  {
    if |pat| > 0 && |s| > 0 {
      LiteralMatchesItself(pat[1..], s[1..]);
      assert s == [s[0]] + s[1..];
      assert pat == [pat[0]] + pat[1..];
    }
  }

  /** `*` alone matches every string. */
  lemma {:induction false} StarMatchesAll(s: string)
    ensures Match("*", s)
    decreases |s|
  {
    if |s| > 0 {
      StarMatchesAll(s[1..]);
    }
  }

  /** A literal head of the pattern must be a prefix of the string, and the
      rest of the pattern then matches the rest of the string. */
  lemma {:induction false} LiteralHead(lit: string, rest: string, s: string)
    requires Literal(lit)
    ensures Match(lit + rest, s) <==> lit <= s && Match(rest, s[|lit|..])
    decreases |lit|
  {
    if |lit| > 0 {
      var pat := lit + rest;
      assert pat[0] == lit[0] && pat[1..] == lit[1..] + rest;
      if |s| > 0 {
        LiteralHead(lit[1..], rest, s[1..]);
        if |lit| <= |s| {
          assert s[1..][|lit| - 1..] == s[|lit|..];
        }
        assert lit <= s <==> s[0] == lit[0] && lit[1..] <= s[1..];
      }
    } else {
      assert lit + rest == rest;
    }
  }

  /** A literal followed by `*` matches exactly the strings it begins. */
  lemma PrefixStar(lit: string, s: string)
    requires Literal(lit)
    ensures Match(lit + "*", s) <==> lit <= s
  {
    LiteralHead(lit, "*", s);
    if lit <= s {
      StarMatchesAll(s[|lit|..]);
    }
  }
}
