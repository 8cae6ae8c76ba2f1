/** String operations shared by the PHP and JavaScript code: substring tests
    (`str_contains`, `String.prototype.includes`, an unanchored regex over
    literals), suffix tests, `explode`/`split` and `implode`/`join` on a
    one-character separator, `basename`, `rtrim`, `str_replace(..., '', ...)`
    and ASCII lower-casing. Strings are sequences of characters; no encoding
    or Unicode case folding is modelled. */
module Strings {

  /** `sub` occurs in `s` at some position: the reference definition of Contains. */
  ghost predicate Occurs(s: string, sub: string) {
    exists i | 0 <= i <= |s| :: sub <= s[i..]
  }

  /** `str_contains($s, $sub)` / `s.includes(sub)`: a left-to-right scan. */
  predicate Contains(s: string, sub: string)
    decreases |s|
  {
    if sub <= s then true
    else if |s| == 0 then false
    else Contains(s[1..], sub)
  }

  lemma {:induction false} ContainsIffOccurs(s: string, sub: string)
    ensures Contains(s, sub) <==> Occurs(s, sub)
    decreases |s|
  {
    if sub <= s {
      assert s[0..] == s;
    } else if |s| == 0 {
      assert !Occurs(s, sub) by {
        forall i | 0 <= i <= |s| ensures !(sub <= s[i..]) {
          assert s[i..] == s;
        }
      }
    } else {
      ContainsIffOccurs(s[1..], sub);
      if Occurs(s[1..], sub) {
        var i :| 0 <= i <= |s[1..]| && sub <= s[1..][i..];
        assert s[1..][i..] == s[i + 1..];
      }
      if Occurs(s, sub) {
        var i :| 0 <= i <= |s| && sub <= s[i..];
        assert i != 0;
        assert s[1..][i - 1..] == s[i..];
      }
    }
  }

  /** Whatever surrounds it, a string contains each of its pieces. */
  lemma ContainsInMiddle(a: string, sub: string, b: string)
    ensures Contains(a + sub + b, sub)
  {
    var s := a + sub + b;
    assert sub <= s[|a|..];
    ContainsIffOccurs(s, sub);
  }

  /** A string lacking one of the characters of `sub` does not contain it. */
  lemma MissingCharNotContained(s: string, sub: string, k: nat)
    requires k < |sub| && sub[k] !in s
    ensures !Contains(s, sub)
  {
    ContainsIffOccurs(s, sub);
  }

  /** A string cannot contain one longer than itself. */
  lemma ContainsShorter(s: string, sub: string)
    requires |s| < |sub|
    ensures !Contains(s, sub)
  {
    ContainsIffOccurs(s, sub);
  }

  predicate EndsWith(s: string, suffix: string) {
    |suffix| <= |s| && s[|s| - |suffix|..] == suffix
  }

  /** `explode($sep, $s)` / `s.split(sep)` for a one-character separator:
      the maximal pieces between separators, in order; never empty. */
  function Split(s: string, sep: char): (parts: seq<string>)
    ensures |parts| >= 1
    decreases |s|
  {
    if |s| == 0 then [""]
    else
      var rest := Split(s[1..], sep);
      if s[0] == sep then [""] + rest
      else [[s[0]] + rest[0]] + rest[1..]
  }

  /** `implode($sep, $parts)` / `parts.join(sep)`. */
  function Join(parts: seq<string>, sep: char): string {
    if |parts| == 0 then ""
    else if |parts| == 1 then parts[0]
    else parts[0] + [sep] + Join(parts[1..], sep)
  }

  /** No piece of a split holds the separator. */
  lemma {:induction false} SplitPartsFree(s: string, sep: char)
    ensures forall k | 0 <= k < |Split(s, sep)| :: sep !in Split(s, sep)[k]
    decreases |s|
  {
    if |s| > 0 {
      SplitPartsFree(s[1..], sep);
    }
  }

  /** Joining the pieces of a split gives the string back. */
  lemma {:induction false} JoinSplit(s: string, sep: char)
    ensures Join(Split(s, sep), sep) == s
    decreases |s|
  {
    if |s| > 0 {
      var rest := Split(s[1..], sep);
      JoinSplit(s[1..], sep);
      if s[0] != sep {
        assert Join([[s[0]] + rest[0]] + rest[1..], sep) == [s[0]] + Join(rest, sep) by {
          if |rest| > 1 {
            assert ([[s[0]] + rest[0]] + rest[1..])[1..] == rest[1..];
          }
        }
      } else {
        assert ([""] + rest)[1..] == rest;
      }
      assert s == [s[0]] + s[1..];
    }
  }

  /** A separator splits the string in two independent halves. */
  lemma {:induction false} SplitAppend(a: string, b: string, sep: char)
    ensures Split(a + [sep] + b, sep) == Split(a, sep) + Split(b, sep)
    decreases |a|
  {
    var s := a + [sep] + b;
    if |a| == 0 {
      assert s[1..] == b;
    } else {
      assert s[1..] == a[1..] + [sep] + b;
      SplitAppend(a[1..], b, sep);
    }
  }

  /** Splitting a join of separator-free pieces gives the pieces back. */
  lemma {:induction false} SplitJoin(parts: seq<string>, sep: char)
    requires |parts| >= 1
    requires forall k | 0 <= k < |parts| :: sep !in parts[k]
    ensures Split(Join(parts, sep), sep) == parts
    decreases |parts|
  {
    if |parts| == 1 {
      SplitFree(parts[0], sep);
    } else {
      SplitJoin(parts[1..], sep);
      SplitAppend(parts[0], Join(parts[1..], sep), sep);
      SplitFree(parts[0], sep);
    }
  }

  /** A string without the separator is a single piece. */
  lemma {:induction false} SplitFree(s: string, sep: char)
    requires sep !in s
    ensures Split(s, sep) == [s]
    decreases |s|
  {
    if |s| > 0 {
      SplitFree(s[1..], sep);
      assert s == [s[0]] + s[1..];
    }
  }

  /** The last piece of a join follows the last separator. */
  lemma {:induction false} JoinLast(parts: seq<string>, sep: char)
    requires |parts| > 1
    ensures Join(parts, sep) == Join(parts[..|parts| - 1], sep) + [sep] + parts[|parts| - 1]
    decreases |parts|
  {
    if |parts| > 2 {
      JoinLast(parts[1..], sep);
      assert parts[1..][..|parts| - 2] == parts[..|parts| - 1][1..];
    }
  }

  /** The last piece of a split is the text after the last separator: it
      ends the string, holds no separator, and is either the whole string
      (no separator at all) or preceded by a separator. */
  lemma SplitLast(s: string, sep: char)
    ensures var p := Split(s, sep); var last := p[|p| - 1];
      && EndsWith(s, last) && sep !in last
      && (|p| == 1 <==> sep !in s)
      && (|p| == 1 ==> last == s)
      && (|p| > 1 ==> s[|s| - |last| - 1] == sep)
  {
    var p := Split(s, sep);
    var last := p[|p| - 1];
    JoinSplit(s, sep);
    SplitPartsFree(s, sep);
    assert sep !in last;
    if |p| == 1 {
      assert s == last;
    } else {
      JoinLast(p, sep);
      var front := Join(p[..|p| - 1], sep);
      assert s == front + [sep] + last;
      assert s[|front|] == sep;
      assert s[|s| - |last|..] == last;
    }
    if sep !in s {
      SplitFree(s, sep);
    }
  }

  /** `rtrim($s, $c)`: every trailing `c` removed. */
  function RTrim(s: string, c: char): (r: string)
    ensures r <= s
    ensures |r| == 0 || r[|r| - 1] != c
    ensures forall k | |r| <= k < |s| :: s[k] == c
    decreases |s|
  {
    if |s| > 0 && s[|s| - 1] == c then RTrim(s[..|s| - 1], c) else s
  }

  /** Text after the last `c`, or all of `s` when there is none. */
  function AfterLast(s: string, c: char): (r: string)
    ensures EndsWith(s, r) && c !in r
    ensures |r| == |s| || s[|s| - |r| - 1] == c
    decreases |s|
  {
    if |s| == 0 then ""
    else if s[|s| - 1] == c then ""
    else AfterLast(s[..|s| - 1], c) + [s[|s| - 1]]
  }

  /** The text after a separator-free tail's separator is that tail. */
  lemma {:induction false} AfterLastTail(a: string, c: char, b: string)
    requires c !in b
    ensures AfterLast(a + [c] + b, c) == b
    decreases |b|
  {
    var s := a + [c] + b;
    if |b| > 0 {
      var front := b[..|b| - 1];
      assert s[..|s| - 1] == a + [c] + front;
      AfterLastTail(a, c, front);
      assert b == front + [b[|b| - 1]];
    }
  }

  /** `basename($p)` in PHP and `path.basename(p)` in Node.js on POSIX
      paths: trailing slashes are dropped, then the last segment is kept. */
  function Basename(p: string): (r: string)
    ensures '/' !in r
  {
    AfterLast(RTrim(p, '/'), '/')
  }

  /** The base name is the longest slash-free tail of the path once its
      trailing slashes are dropped. */
  lemma BasenameIsLastSegment(p: string)
    ensures var t := RTrim(p, '/'); var b := Basename(p);
      EndsWith(t, b) && (|b| == |t| || t[|t| - |b| - 1] == '/')
  {
  }

  /** The base name of `dir/f`, for a non-empty file name `f`, is `f`. */
  lemma BasenameOfPath(dir: string, f: string)
    requires |f| > 0 && '/' !in f
    ensures Basename(dir + "/" + f) == f
  {
    var p := dir + "/" + f;
    assert p[|p| - 1] == f[|f| - 1];
    assert RTrim(p, '/') == p;
    AfterLastTail(dir, '/', f);
  }

  /** `str_replace($pat, '', $s)`: every non-overlapping occurrence of `pat`,
      found left to right, removed; an empty `pat` leaves `s` unchanged. */
  function RemoveAll(s: string, pat: string): (r: string)
    ensures |r| <= |s|
    decreases |s|
  {
    if |pat| == 0 || |s| == 0 then s
    else if pat <= s then RemoveAll(s[|pat|..], pat)
    else [s[0]] + RemoveAll(s[1..], pat)
  }

  /** A string without `pat` passes through `str_replace` unchanged. */
  lemma {:induction false} RemoveAllAbsent(s: string, pat: string)
    requires !Contains(s, pat)
    ensures RemoveAll(s, pat) == s
    decreases |s|
  {
    if |pat| != 0 && |s| != 0 {
      RemoveAllAbsent(s[1..], pat);
      assert s == [s[0]] + s[1..];
    }
  }

  /** A leading occurrence of `pat` disappears and the rest is treated alone. */
  lemma RemoveAllLeading(pat: string, rest: string)
    requires |pat| > 0
    ensures RemoveAll(pat + rest, pat) == RemoveAll(rest, pat)
  {
    assert pat <= pat + rest;
    assert (pat + rest)[|pat|..] == rest;
  }

  function LowerChar(c: char): (r: char) {
    if 'A' <= c <= 'Z' then (c as int - 'A' as int + 'a' as int) as char else c
  }

  /** `strtolower($s)` as PHP 8.2 defines it: ASCII letters only. */
  function ToLowerAscii(s: string): (r: string)
    ensures |r| == |s|
    ensures forall k | 0 <= k < |s| :: r[k] == LowerChar(s[k])
    ensures forall k | 0 <= k < |r| :: !('A' <= r[k] <= 'Z')
  {
    seq(|s|, k requires 0 <= k < |s| => LowerChar(s[k]))
  }

  predicate IsAsciiAlnum(c: char) {
    'A' <= c <= 'Z' || 'a' <= c <= 'z' || '0' <= c <= '9'
  }
}
