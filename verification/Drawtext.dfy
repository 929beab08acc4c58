/**
 Escaping a camera name for the video filter that draws it: a chain of three replacements, for the backslash, the
 quote and the colon, in that order.
 */
module Drawtext {

  /** str.replace for a pattern of one character. */
  function Replace(s: string, c: char, text: string): string
  {
    if s == "" then "" else (if s[0] == c then text else [s[0]]) + Replace(s[1..], c, text)
  }

  /** The chain as the command builder writes it. */
  function Escape(name: string): string
  {
    Replace(Replace(Replace(name, '\\', "\\\\"), '\'', "\\\'"), ':', "\\:")
  }

  predicate Special(c: char) { c == '\\' || c == '\'' || c == ':' }

  function EscapeChar(c: char): string { if Special(c) then ['\\', c] else [c] }

  /** The same in one pass. */
  function OnePass(name: string): string
  {
    if name == "" then "" else EscapeChar(name[0]) + OnePass(name[1..])
  }

  /** The inverse of the escape: a backslash stands for the character after it. */
  function Unescape(s: string): string
  {
    if s == "" then ""
    else if s[0] == '\\' && |s| >= 2 then [s[1]] + Unescape(s[2..])
    else [s[0]] + Unescape(s[1..])
  }

  lemma {:induction false} ReplaceConcat(a: string, b: string, c: char, text: string)
    ensures Replace(a + b, c, text) == Replace(a, c, text) + Replace(b, c, text)
  {
    if a == "" {
      assert a + b == b;
    } else {
      assert (a + b)[1..] == a[1..] + b;
      ReplaceConcat(a[1..], b, c, text);
    }
  }

  lemma ReplaceOne(x: char, c: char, text: string)
    ensures Replace([x], c, text) == if x == c then text else [x]
  {
    assert Replace([x][1..], c, text) == "";
  }

  /** A replacement of another character passes over an escaped one. */
  lemma ReplacePair(x: char, y: char, c: char, text: string)
    requires x != c && y != c
    ensures Replace([x, y], c, text) == [x, y]
  {
    ReplaceConcat([x], [y], c, text);
    ReplaceOne(x, c, text);
    ReplaceOne(y, c, text);
    assert [x] + [y] == [x, y];
  }

  lemma EscapeOne(c: char)
    ensures Escape([c]) == EscapeChar(c)
  {
    ReplaceOne(c, '\\', "\\\\");
    ReplaceOne(c, '\'', "\\\'");
    ReplaceOne(c, ':', "\\:");
    if c == '\\' {
      ReplacePair('\\', '\\', '\'', "\\\'");
      ReplacePair('\\', '\\', ':', "\\:");
    } else if c == '\'' {
      ReplacePair('\\', '\'', ':', "\\:");
    }
  }

  lemma EscapeConcat(a: string, b: string)
    ensures Escape(a + b) == Escape(a) + Escape(b)
  {
    ReplaceConcat(a, b, '\\', "\\\\");
    var a1, b1 := Replace(a, '\\', "\\\\"), Replace(b, '\\', "\\\\");
    ReplaceConcat(a1, b1, '\'', "\\\'");
    ReplaceConcat(Replace(a1, '\'', "\\\'"), Replace(b1, '\'', "\\\'"), ':', "\\:");
  }

  /** The later replacements do not touch what the earlier ones inserted: the chain escapes each character once. */
  lemma {:induction false} EscapeIsOnePass(name: string)
    ensures Escape(name) == OnePass(name)
  {
    if name != "" {
      assert name == [name[0]] + name[1..];
      EscapeConcat([name[0]], name[1..]);
      EscapeOne(name[0]);
      EscapeIsOnePass(name[1..]);
    }
  }

  lemma {:induction false} UnescapeOnePass(name: string)
    ensures Unescape(OnePass(name)) == name
  {
    if name != "" {
      UnescapeOnePass(name[1..]);
      var rest := OnePass(name[1..]);
      if Special(name[0]) {
        assert OnePass(name) == ['\\', name[0]] + rest && OnePass(name)[2..] == rest;
      } else {
        assert OnePass(name) == [name[0]] + rest && OnePass(name)[1..] == rest;
      }
    }
  }

  /** Every name comes back unchanged. */
  lemma EscapeRoundTrip(name: string)
    ensures Unescape(Escape(name)) == name
  {
    EscapeIsOnePass(name);
    UnescapeOnePass(name);
  }

  /** Different names have different escapes. */
  lemma EscapeInjective(a: string, b: string)
    requires Escape(a) == Escape(b)
    ensures a == b
  {
    EscapeRoundTrip(a);
    EscapeRoundTrip(b);
  }

  /** How many backslashes stand right before position i. */
  function Backslashes(s: string, i: nat): nat
    requires i <= |s|
  {
    if i == 0 || s[i - 1] != '\\' then 0 else 1 + Backslashes(s, i - 1)
  }

  lemma {:induction false} BackslashesInPrefix(a: string, b: string, i: nat)
    requires i <= |a|
    ensures Backslashes(a + b, i) == Backslashes(a, i)
  {
    if i > 0 && a[i - 1] == '\\' {
      BackslashesInPrefix(a, b, i - 1);
    }
  }

  lemma {:induction false} OnePassAppend(name: string, c: char)
    ensures OnePass(name + [c]) == OnePass(name) + EscapeChar(c)
  {
    if name == "" {
      assert name + [c] == [c] && [c][1..] == "";
    } else {
      assert (name + [c])[1..] == name[1..] + [c];
      OnePassAppend(name[1..], c);
    }
  }

  ghost predicate QuotesEscaped(s: string)
  {
    forall i | 0 <= i < |s| && (s[i] == '\'' || s[i] == ':') :: Backslashes(s, i) % 2 == 1
  }

  /** A quote or colon of an escaped text is itself escaped: an odd run of backslashes precedes it, and an even one ends the text. */
  ghost predicate WellEscaped(s: string)
  {
    Backslashes(s, |s|) % 2 == 0 && QuotesEscaped(s)
  }

  lemma BackslashesAtEnd(s: string, x: char)
    ensures Backslashes(s + [x], |s| + 1) == if x == '\\' then 1 + Backslashes(s, |s|) else 0
  {
    BackslashesInPrefix(s, [x], |s|);
  }

  lemma QuotesEscapedAppend(s: string, x: char)
    requires QuotesEscaped(s) && ((x == '\'' || x == ':') ==> Backslashes(s, |s|) % 2 == 1)
    ensures QuotesEscaped(s + [x])
  {
    forall i | 0 <= i < |s + [x]| && ((s + [x])[i] == '\'' || (s + [x])[i] == ':') ensures Backslashes(s + [x], i) % 2 == 1 {
      BackslashesInPrefix(s, [x], i);
    }
  }

  lemma WellEscapedAppend(s: string, c: char)
    requires WellEscaped(s)
    ensures WellEscaped(s + EscapeChar(c))
  {
    if Special(c) {
      assert s + EscapeChar(c) == s + ['\\'] + [c];
      BackslashesAtEnd(s, '\\');
      BackslashesAtEnd(s + ['\\'], c);
      QuotesEscapedAppend(s, '\\');
      QuotesEscapedAppend(s + ['\\'], c);
    } else {
      BackslashesAtEnd(s, c);
      QuotesEscapedAppend(s, c);
    }
  }

  lemma {:induction false} EscapeIsWellEscaped(name: string)
    ensures WellEscaped(Escape(name))
  {
    EscapeIsOnePass(name);
    if name != "" {
      var n := |name| - 1;
      EscapeIsWellEscaped(name[..n]);
      EscapeIsOnePass(name[..n]);
      OnePassAppend(name[..n], name[n]);
      assert name == name[..n] + [name[n]];
      WellEscapedAppend(OnePass(name[..n]), name[n]);
    }
  }
}
