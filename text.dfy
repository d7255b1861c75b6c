/** Strings as the app sees them, and the `trim` that every title passes through.
    `trim` removes leading and trailing characters that are white space or
    line terminators in the ECMAScript sense; nothing below depends on which
    characters those are, only on `IsWhitespace` being a fixed predicate. */
module Text {

  /** ECMAScript WhiteSpace and LineTerminator code points. */
  predicate IsWhitespace(c: char)
  {
    || ('\t' <= c <= '\r')  // tab, line feed, vertical tab, form feed, carriage return
    || c == ' ' || c == '\U{A0}' || c == '\U{1680}'
    || ('\U{2000}' <= c <= '\U{200A}')
    || c == '\U{2028}' || c == '\U{2029}' || c == '\U{202F}' || c == '\U{205F}'
    || c == '\U{3000}' || c == '\U{FEFF}'
  }

  /** Every character of `s` is white space (the empty string included):
      exactly the strings whose `trim()` is falsy. */
  predicate Blank(s: string)
  {
    forall k :: 0 <= k < |s| ==> IsWhitespace(s[k])
  }

  /** `trimStart`: drops the longest all-white-space prefix. */
  function TrimStart(s: string): string
  {
    if s != [] && IsWhitespace(s[0]) then TrimStart(s[1..]) else s
  }

  /** `trimEnd`: drops the longest all-white-space suffix. */
  function TrimEnd(s: string): string
  {
    if s != [] && IsWhitespace(s[|s| - 1]) then TrimEnd(s[..|s| - 1]) else s
  }

  /** What is left after `TrimStart` is a suffix whose first character is not
      white space, and what was dropped is all white space. */
  lemma {:induction false} TrimStartFacts(s: string)
    ensures var r := TrimStart(s);
      && |r| <= |s| && r == s[|s| - |r|..]
      && Blank(s[..|s| - |r|])
      && (r != [] ==> !IsWhitespace(r[0]))
  {
    if s != [] && IsWhitespace(s[0]) {
      TrimStartFacts(s[1..]);
      var r := TrimStart(s[1..]);
      assert s[1..][..|s| - 1 - |r|] == s[1..|s| - |r|];
    }
  }

  /** What is left after `TrimEnd` is a prefix whose last character is not
      white space, and what was dropped is all white space. */
  lemma {:induction false} TrimEndFacts(s: string)
    ensures var r := TrimEnd(s);
      && |r| <= |s| && r == s[..|r|]
      && Blank(s[|r|..])
      && (r != [] ==> !IsWhitespace(r[|r| - 1]))
  {
    if s != [] && IsWhitespace(s[|s| - 1]) {
      TrimEndFacts(s[..|s| - 1]);
      var r := TrimEnd(s[..|s| - 1]);
      assert s[|r|..] == s[..|s| - 1][|r|..] + [s[|s| - 1]];
    }
  }

  /** `String.prototype.trim`: what is left of `s` after removing the white
      space at both ends. It is empty exactly when `s` is blank, and otherwise
      begins and ends with a character that is not white space. */
  function Trim(s: string): (r: string)
    ensures |r| <= |s|
    ensures r == [] <==> Blank(s)
    ensures r != [] ==> !IsWhitespace(r[0]) && !IsWhitespace(r[|r| - 1])
  {
    TrimStartFacts(s);
    TrimEndFacts(TrimStart(s));
    TrimBothEnds(s);
    TrimEnd(TrimStart(s))
  }

  /** The facts about `TrimEnd(TrimStart(s))` that `Trim` promises. */
  lemma {:induction false} TrimBothEnds(s: string)
    ensures TrimEnd(TrimStart(s)) == [] <==> Blank(s)
    ensures TrimEnd(TrimStart(s)) != [] ==> !IsWhitespace(TrimEnd(TrimStart(s))[0])
  {
    if TrimEnd(TrimStart(s)) == [] {
      TrimmedAwayIsBlank(s);
    } else {
      TrimmedKeepsNonBlank(s);
    }
  }

  lemma {:induction false} TrimmedAwayIsBlank(s: string)
    requires TrimEnd(TrimStart(s)) == []
    ensures Blank(s)
  {
    var a := TrimStart(s);
    TrimStartFacts(s);
    TrimEndFacts(a);
    assert a[0..] == a;
    BlankJoin(s, |s| - |a|);
  }

  lemma {:induction false} TrimmedKeepsNonBlank(s: string)
    requires TrimEnd(TrimStart(s)) != []
    ensures !Blank(s) && !IsWhitespace(TrimEnd(TrimStart(s))[0])
  {
    var a := TrimStart(s);
    var r := TrimEnd(a);
    TrimStartFacts(s);
    TrimEndFacts(a);
    assert r[0] == a[0];
    assert s[|s| - |a|] == a[0];
  }

  lemma BlankJoin(s: string, i: nat)
    requires i <= |s|
    requires Blank(s[..i]) && Blank(s[i..])
    ensures Blank(s)
  {
  }

  /** `Trim` removes a blank prefix and a blank suffix and nothing else. */
  lemma TrimRemovesBlankEnds(s: string)
    ensures exists i ::
              && 0 <= i <= i + |Trim(s)| <= |s|
              && Trim(s) == s[i..i + |Trim(s)|]
              && Blank(s[..i]) && Blank(s[i + |Trim(s)|..])
  {
    var a := TrimStart(s);
    TrimStartFacts(s);
    TrimEndFacts(a);
    var r, i := Trim(s), |s| - |a|;
    assert s[i + |r|..] == a[|r|..];
    assert 0 <= i <= i + |r| <= |s| && r == s[i..i + |r|] && Blank(s[..i]) && Blank(s[i + |r|..]);
  }

  /** Trimming twice is trimming once. */
  lemma TrimIdempotent(s: string)
    ensures Trim(Trim(s)) == Trim(s)
  {
  }
}
