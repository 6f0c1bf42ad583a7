/**
 * The text escaping the printable quote applies to every piece of free text
 * (client name, product labels, codes, the flags summary) before it is
 * embedded in the document's markup: `&`, `<` and `>` become the HTML
 * character references `&amp;`, `&lt;` and `&gt;`.
 *
 * The source performs three whole-string replacements in a row, `&` first.
 * The model keeps that chain (EscapeText) and proves it equal to the
 * character-by-character rewriting (EscapePerChar), which is what makes the
 * order matter: the `&` of an inserted entity is never escaped again.
 */
module QuotePdf {

  /** Replaces every occurrence of the character `c` in `s` by `rep`, scanning left to right. */
  function ReplaceChar(s: string, c: char, rep: string): (r: string)
    ensures c !in s ==> r == s
    ensures forall ch :: ch in r ==> (ch in s && ch != c) || ch in rep
    ensures c in rep || c !in r
  {
    if |s| == 0 then []
    else (if s[0] == c then rep else [s[0]]) + ReplaceChar(s[1..], c, rep)
  }

  /** The escaping applied to free text before it enters the document. */
  function EscapeText(s: string): (r: string)
    ensures '<' !in r && '>' !in r
    ensures '&' !in s && '<' !in s && '>' !in s ==> r == s
  {
    ReplaceChar(ReplaceChar(ReplaceChar(s, '&', "&amp;"), '<', "&lt;"), '>', "&gt;")
  }

  /** The replacement text of a single character. */
  function EscapeChar(ch: char): string
  {
    if ch == '&' then "&amp;"
    else if ch == '<' then "&lt;"
    else if ch == '>' then "&gt;"
    else [ch]
  }

  /** Reference definition: each character is replaced independently of its neighbours. */
  function EscapePerChar(s: string): string
  {
    if |s| == 0 then [] else EscapeChar(s[0]) + EscapePerChar(s[1..])
  }

  /** Replacing a character distributes over concatenation. */
  lemma {:induction false} ReplaceCharConcat(a: string, b: string, c: char, rep: string)
    ensures ReplaceChar(a + b, c, rep) == ReplaceChar(a, c, rep) + ReplaceChar(b, c, rep)
  {
    if |a| == 0 {
      assert a + b == b;
    } else {
      assert (a + b)[0] == a[0];
      assert (a + b)[1..] == a[1..] + b;
      ReplaceCharConcat(a[1..], b, c, rep);
    }
  }

  /** So does the whole escaping chain. */
  lemma EscapeTextConcat(a: string, b: string)
    ensures EscapeText(a + b) == EscapeText(a) + EscapeText(b)
  {
    var a1, b1 := ReplaceChar(a, '&', "&amp;"), ReplaceChar(b, '&', "&amp;");
    ReplaceCharConcat(a, b, '&', "&amp;");
    var a2, b2 := ReplaceChar(a1, '<', "&lt;"), ReplaceChar(b1, '<', "&lt;");
    ReplaceCharConcat(a1, b1, '<', "&lt;");
    ReplaceCharConcat(a2, b2, '>', "&gt;");
  }

  /** On a single character the chain yields that character's replacement. */
  lemma EscapeTextSingle(ch: char)
    ensures EscapeText([ch]) == EscapeChar(ch)
  {
    if ch == '&' {
      assert ReplaceChar([ch], '&', "&amp;") == "&amp;" + ReplaceChar([], '&', "&amp;");
    } else if ch == '<' {
      assert ReplaceChar([ch], '<', "&lt;") == "&lt;" + ReplaceChar([], '<', "&lt;");
    } else if ch == '>' {
      assert ReplaceChar([ch], '>', "&gt;") == "&gt;" + ReplaceChar([], '>', "&gt;");
    }
  }

  /**
   * Replacing `&` first and then `<` and `>` over the whole string gives the
   * same text as escaping each character on its own.
   */
  lemma {:induction false} EscapeTextIsPerChar(s: string)
    ensures EscapeText(s) == EscapePerChar(s)
  {
    if |s| > 0 {
      assert s == [s[0]] + s[1..];
      EscapeTextConcat([s[0]], s[1..]);
      EscapeTextSingle(s[0]);
      EscapeTextIsPerChar(s[1..]);
    }
  }

  /**
   * Each `&` costs four extra characters, each `<` and `>` three; every other
   * character is copied.
   */
  lemma {:induction false} EscapeTextLength(s: string)
    ensures |EscapeText(s)| == |s| + 4 * multiset(s)['&'] + 3 * multiset(s)['<'] + 3 * multiset(s)['>']
  {
    EscapePerCharLength(s);
    EscapeTextIsPerChar(s);
  }

  /** The growth of the text as a function of the character counts of `s`. */
  function Growth(s: string): int
  {
    4 * multiset(s)['&'] + 3 * multiset(s)['<'] + 3 * multiset(s)['>']
  }

  lemma EscapeCharLength(ch: char)
    ensures |EscapeChar(ch)| == 1 + Growth([ch])
  {
  }

  lemma GrowthConcat(a: string, b: string)
    ensures Growth(a + b) == Growth(a) + Growth(b)
  {
    assert multiset(a + b) == multiset(a) + multiset(b);
  }

  lemma {:induction false} EscapePerCharLength(s: string)
    ensures |EscapePerChar(s)| == |s| + Growth(s)
  {
    if |s| > 0 {
      assert s == [s[0]] + s[1..];
      GrowthConcat([s[0]], s[1..]);
      EscapeCharLength(s[0]);
      EscapePerCharLength(s[1..]);
    }
  }

  /** Decodes the three character references back to the characters they stand for. */
  function Unescape(t: string): string
  {
    if |t| == 0 then []
    else if |t| >= 5 && t[..5] == "&amp;" then ['&'] + Unescape(t[5..])
    else if |t| >= 4 && t[..4] == "&lt;" then ['<'] + Unescape(t[4..])
    else if |t| >= 4 && t[..4] == "&gt;" then ['>'] + Unescape(t[4..])
    else [t[0]] + Unescape(t[1..])
  }

  /** Text that does not start with `&` is decoded one character at a time. */
  lemma UnescapePlain(t: string)
    requires |t| > 0 && t[0] != '&'
    ensures Unescape(t) == [t[0]] + Unescape(t[1..])
  {
    if |t| >= 5 {
      assert t[..5][0] == t[0];
    }
    if |t| >= 4 {
      assert t[..4][0] == t[0];
    }
  }

  lemma UnescapeAmp(rest: string)
    ensures Unescape("&amp;" + rest) == ['&'] + Unescape(rest)
  {
    var t := "&amp;" + rest;
    assert t[..5] == "&amp;" && t[5..] == rest;
  }

  lemma UnescapeLt(rest: string)
    ensures Unescape("&lt;" + rest) == ['<'] + Unescape(rest)
  {
    var t := "&lt;" + rest;
    assert t[1] == 'l' && |t| >= 4;
    assert t[..4] == "&lt;" && t[4..] == rest;
  }

  lemma UnescapeGt(rest: string)
    ensures Unescape("&gt;" + rest) == ['>'] + Unescape(rest)
  {
    var t := "&gt;" + rest;
    assert t[1] == 'g' && |t| >= 4;
    assert t[..4] != "&lt;";
    assert t[..4] == "&gt;" && t[4..] == rest;
  }

  lemma UnescapeStep(ch: char, rest: string)
    ensures Unescape(EscapeChar(ch) + rest) == [ch] + Unescape(rest)
  {
    if ch == '&' {
      UnescapeAmp(rest);
    } else if ch == '<' {
      UnescapeLt(rest);
    } else if ch == '>' {
      UnescapeGt(rest);
    } else {
      var t := [ch] + rest;
      assert t[0] == ch && t[1..] == rest;
      UnescapePlain(t);
    }
  }

  /**
   * Escaping loses nothing: decoding the references recovers the original
   * text, so distinct texts are rendered distinctly.
   */
  lemma {:induction false} EscapeTextRoundTrip(s: string)
    ensures Unescape(EscapeText(s)) == s
  {
    EscapeTextIsPerChar(s);
    EscapePerCharRoundTrip(s);
  }

  lemma {:induction false} EscapePerCharRoundTrip(s: string)
    ensures Unescape(EscapePerChar(s)) == s
  {
    if |s| > 0 {
      UnescapeStep(s[0], EscapePerChar(s[1..]));
      EscapePerCharRoundTrip(s[1..]);
      assert s == [s[0]] + s[1..];
    }
  }

  lemma EscapeTextInjective(a: string, b: string)
    ensures EscapeText(a) == EscapeText(b) ==> a == b
  {
    EscapeTextRoundTrip(a);
    EscapeTextRoundTrip(b);
  }
}
