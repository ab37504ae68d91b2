/** ASCII models of the few `str` operations the analyzer relies on:
    `trim`, `to_lowercase`, `starts_with`, `ends_with` and `contains`.
    Rust's versions work on Unicode; these restrict whitespace and case
    folding to ASCII. */
module Text {

  /** The ASCII characters that `char::is_whitespace` accepts:
      space, tab, line feed, vertical tab, form feed and carriage return. */
  predicate IsWhitespace(c: char) {
    c == ' ' || ('\t' <= c <= '\r')
  }

  predicate AllWhitespace(s: string) {
    forall k | 0 <= k < |s| :: IsWhitespace(s[k])
  }

  /** `str::trim_start`: drops the leading whitespace. */
  function TrimStart(s: string): string {
    if |s| > 0 && IsWhitespace(s[0]) then TrimStart(s[1..]) else s
  }

  /** `str::trim_end`: drops the trailing whitespace. */
  function TrimEnd(s: string): string {
    if |s| > 0 && IsWhitespace(s[|s| - 1]) then TrimEnd(s[..|s| - 1]) else s
  }

  /** `str::trim`. */
  function Trim(s: string): string {
    TrimEnd(TrimStart(s))
  }

  /** `TrimStart` removes exactly the whitespace prefix. */
  lemma {:induction false} TrimStartShape(s: string)
    ensures var r := TrimStart(s);
      && |r| <= |s| && r == s[|s| - |r|..]
      && AllWhitespace(s[..|s| - |r|])
      && (|r| > 0 ==> !IsWhitespace(r[0]))
  {
    if |s| > 0 && IsWhitespace(s[0]) {
      TrimStartShape(s[1..]);
      var r := TrimStart(s);
      assert s[1..][..|s| - 1 - |r|] == s[1..|s| - |r|];
    }
  }

  /** `TrimEnd` removes exactly the whitespace suffix. */
  lemma {:induction false} TrimEndShape(s: string)
    ensures var r := TrimEnd(s);
      && |r| <= |s| && r == s[..|r|]
      && AllWhitespace(s[|r|..])
      && (|r| > 0 ==> !IsWhitespace(r[|r| - 1]))
  {
    if |s| > 0 && IsWhitespace(s[|s| - 1]) {
      TrimEndShape(s[..|s| - 1]);
      var r := TrimEnd(s);
      assert s[..|s| - 1][|r|..] == s[|r|..|s| - 1];
    }
  }

  /** `Trim` is the part of `s` between its leading and trailing
      whitespace: the slice that starts after the whitespace prefix and
      is followed by a whitespace suffix. It is empty exactly for an
      all-whitespace line, and otherwise starts and ends with a
      non-whitespace character. */
  lemma TrimShape(s: string)
    ensures var r := Trim(s);
      var i := |s| - |TrimStart(s)|;
      && 0 <= i && i + |r| <= |s|
      && r == s[i..i + |r|]
      && AllWhitespace(s[..i]) && AllWhitespace(s[i + |r|..])
      && (r == [] <==> AllWhitespace(s))
      && (|r| > 0 ==> !IsWhitespace(r[0]) && !IsWhitespace(r[|r| - 1]))
  {
    TrimSlice(s);
    TrimEmpty(s);
    TrimEnds(s);
  }

  lemma TrimSlice(s: string)
    ensures var r := Trim(s);
      var i := |s| - |TrimStart(s)|;
      && 0 <= i && i + |r| <= |s|
      && r == s[i..i + |r|]
      && AllWhitespace(s[..i]) && AllWhitespace(s[i + |r|..])
  {
    var front := TrimStart(s);
    TrimStartShape(s);
    TrimEndShape(front);
    var r := TrimEnd(front);
    var i := |s| - |front|;
    assert r == front[..|r|] == s[i..i + |r|];
    assert s[i + |r|..] == front[|r|..];
  }

  lemma TrimEmpty(s: string)
    ensures Trim(s) == [] <==> AllWhitespace(s)
  {
    var front := TrimStart(s);
    TrimStartShape(s);
    TrimEndShape(front);
    var i := |s| - |front|;
    if Trim(s) == [] {
      assert front[0..] == front;
      assert |front| == 0;
      assert s[..i] == s;
    } else {
      assert !IsWhitespace(front[0]);
      assert front[0] == s[i];
    }
  }

  lemma TrimEnds(s: string)
    ensures var r := Trim(s);
      |r| > 0 ==> !IsWhitespace(r[0]) && !IsWhitespace(r[|r| - 1])
  {
    var front := TrimStart(s);
    TrimStartShape(s);
    TrimEndShape(front);
    var r := TrimEnd(front);
    if |r| > 0 {
      assert r[0] == front[0];
    }
  }

  /** Lowering one ASCII character: an upper-case letter becomes the
      lower-case letter 32 code points above it, and every other character
      is unchanged; so the result is never an upper-case letter, and it is
      a lower-case letter exactly when `c` is a letter of either case. */
  function LowerChar(c: char): (d: char)
    ensures 'A' <= c <= 'Z' ==> d as int == c as int + 32
    ensures !('A' <= c <= 'Z') ==> d == c
    ensures !('A' <= d <= 'Z')
    ensures 'a' <= d <= 'z' <==> 'a' <= c <= 'z' || 'A' <= c <= 'Z'
  {
    if 'A' <= c <= 'Z' then (c as int + 32) as char else c
  }

  /** A character lowers to a given lower-case letter exactly when it is
      that letter or its upper-case form. */
  lemma LowerCharMatches(c: char, w: char)
    requires 'a' <= w <= 'z'
    ensures LowerChar(c) == w <==> c == w || c as int == w as int - 32
  {
  }

  /** `str::to_lowercase` restricted to ASCII letters. */
  function Lower(s: string): (r: string)
    ensures |r| == |s|
    ensures forall k | 0 <= k < |s| :: r[k] == LowerChar(s[k])
    ensures forall k | 0 <= k < |r| :: !('A' <= r[k] <= 'Z')
  {
    seq(|s|, k requires 0 <= k < |s| => LowerChar(s[k]))
  }

  predicate StartsWith(s: string, prefix: string) {
    |prefix| <= |s| && s[..|prefix|] == prefix
  }

  /** A string with a non-empty prefix begins with that prefix's first
      character, which tells apart strings with different prefixes. */
  lemma StartsWithHead(s: string, prefix: string)
    requires StartsWith(s, prefix) && prefix != []
    ensures |s| > 0 && s[0] == prefix[0]
  {
    assert s[..|prefix|][0] == s[0];
  }

  predicate EndsWith(s: string, suffix: string) {
    |suffix| <= |s| && s[|s| - |suffix|..] == suffix
  }

  /** `str::contains` for a string pattern: `t` starts at some position of `s`. */
  predicate Contains(s: string, t: string)
    decreases |s|
  {
    StartsWith(s, t) || (|s| > 0 && Contains(s[1..], t))
  }

  /** `Contains` holds exactly when `t` occurs in `s` at some offset. */
  lemma {:induction false} ContainsIff(s: string, t: string)
    ensures Contains(s, t) <==> exists i | 0 <= i <= |s| :: StartsWith(s[i..], t)
    decreases |s|
  {
    assert s[0..] == s;
    if StartsWith(s, t) {
      assert StartsWith(s[0..], t);
    } else if |s| > 0 {
      ContainsIff(s[1..], t);
      if Contains(s[1..], t) {
        var i :| 0 <= i <= |s| - 1 && StartsWith(s[1..][i..], t);
        assert s[1..][i..] == s[i + 1..];
        assert StartsWith(s[i + 1..], t);
      }
      if exists i | 0 <= i <= |s| :: StartsWith(s[i..], t) {
        var i :| 0 <= i <= |s| && StartsWith(s[i..], t);
        assert i > 0;
        assert s[1..][i - 1..] == s[i..];
        assert StartsWith(s[1..][i - 1..], t);
      }
    }
  }
}
