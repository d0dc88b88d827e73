/** Escaping of text embedded in the vector markup. The source replaces the
    five reserved characters one after another, ampersand first; `Escape` is
    that chain of whole-string replacements. `EscapeChars` is an independent
    character-by-character definition and `Unescape` is what a markup reader
    does with the five entities. */
module Markup {

  /** Replace every occurrence of `c` in `s` by `rep`; text without `c` is
      returned unchanged. */
  function Replace(s: string, c: char, rep: string): (r: string)
    ensures c !in s ==> r == s
    ensures |rep| >= 1 ==> |r| >= |s|
  {
    if |s| == 0 then []
    else (if s[0] == c then rep else [s[0]]) + Replace(s[1..], c, rep)
  }

  /** The source's escape: `&` first, then `<`, `>`, `"` and `'`. Every
      replacement is at least as long as what it replaces, so nothing is lost. */
  function Escape(s: string): (r: string)
    ensures |r| >= |s|
  {
    Replace(Replace(Replace(Replace(Replace(s, '&', "&amp;"), '<', "&lt;"), '>', "&gt;"), '"', "&quot;"), '\'', "&apos;")
  }

  /** `t` holds none of the four characters that would end a text node or an
      attribute value. */
  predicate MarkupFree(t: string)
  {
    '<' !in t && '>' !in t && '"' !in t && '\'' !in t
  }

  predicate Reserved(c: char)
  {
    c == '&' || c == '<' || c == '>' || c == '"' || c == '\''
  }

  /** The entity for a reserved character; any other character stands for itself. */
  function EscapeChar(c: char): string
  {
    match c
    case '&' => "&amp;"
    case '<' => "&lt;"
    case '>' => "&gt;"
    case '"' => "&quot;"
    case '\'' => "&apos;"
    case _ => [c]
  }

  /** Reference definition: escape each character on its own. The result
      holds none of the four characters that would end a text node or an
      attribute value, and is never shorter than the input. */
  function EscapeChars(s: string): (r: string)
    ensures MarkupFree(r)
    ensures |r| >= |s|
  {
    if |s| == 0 then [] else EscapeChar(s[0]) + EscapeChars(s[1..])
  }

  /** A markup reader's view: each of the five entities stands for its
      character; everything else, including a bare `&`, is read as is. */
  function Unescape(s: string): string
    decreases |s|
  {
    if |s| == 0 then []
    else if "&amp;" <= s then "&" + Unescape(s[5..])
    else if "&lt;" <= s then "<" + Unescape(s[4..])
    else if "&gt;" <= s then ">" + Unescape(s[4..])
    else if "&quot;" <= s then "\"" + Unescape(s[6..])
    else if "&apos;" <= s then "'" + Unescape(s[6..])
    else [s[0]] + Unescape(s[1..])
  }

  // ----- properties -----

  lemma {:induction false} ReplaceAppend(a: string, b: string, c: char, rep: string)
    ensures Replace(a + b, c, rep) == Replace(a, c, rep) + Replace(b, c, rep)
  {
    if |a| == 0 {
      assert a + b == b;
    } else {
      assert (a + b)[1..] == a[1..] + b;
      ReplaceAppend(a[1..], b, c, rep);
    }
  }

  lemma ReplaceOne(d: char, c: char, rep: string)
    ensures Replace([d], c, rep) == if d == c then rep else [d]
  {
    assert [d][1..] == [];
  }

  /** The four replacements after the first leave text without reserved characters alone. */
  lemma LaterStepsKeep(t: string)
    requires MarkupFree(t)
    ensures Replace(Replace(Replace(Replace(t, '<', "&lt;"), '>', "&gt;"), '"', "&quot;"), '\'', "&apos;") == t
  {
  }

  /** The chain of replacements, applied to a single character, yields that character's entity. */
  lemma EscapeOneChar(d: char)
    ensures Escape([d]) == EscapeChar(d)
  {
    ReplaceOne(d, '&', "&amp;");
    if d == '&' {
      LaterStepsKeep("&amp;");
    } else if d == '<' {
      ReplaceOne(d, '<', "&lt;");
      LaterStepsKeepAfterLt();
    } else if d == '>' {
      ReplaceOne(d, '<', "&lt;");
      ReplaceOne(d, '>', "&gt;");
      assert '"' !in "&gt;" && '\'' !in "&gt;";
    } else if d == '"' {
      ReplaceOne(d, '<', "&lt;");
      ReplaceOne(d, '>', "&gt;");
      ReplaceOne(d, '"', "&quot;");
      assert '\'' !in "&quot;";
    } else {
      ReplaceOne(d, '<', "&lt;");
      ReplaceOne(d, '>', "&gt;");
      ReplaceOne(d, '"', "&quot;");
      ReplaceOne(d, '\'', "&apos;");
    }
  }

  lemma LaterStepsKeepAfterLt()
    ensures Replace(Replace(Replace("&lt;", '>', "&gt;"), '"', "&quot;"), '\'', "&apos;") == "&lt;"
  {
    assert '>' !in "&lt;" && '"' !in "&lt;" && '\'' !in "&lt;";
  }

  lemma EscapeAppend(a: string, b: string)
    ensures Escape(a + b) == Escape(a) + Escape(b)
  {
    ReplaceAppend(a, b, '&', "&amp;");
    var a1, b1 := Replace(a, '&', "&amp;"), Replace(b, '&', "&amp;");
    ReplaceAppend(a1, b1, '<', "&lt;");
    var a2, b2 := Replace(a1, '<', "&lt;"), Replace(b1, '<', "&lt;");
    ReplaceAppend(a2, b2, '>', "&gt;");
    var a3, b3 := Replace(a2, '>', "&gt;"), Replace(b2, '>', "&gt;");
    ReplaceAppend(a3, b3, '"', "&quot;");
    var a4, b4 := Replace(a3, '"', "&quot;"), Replace(b3, '"', "&quot;");
    ReplaceAppend(a4, b4, '\'', "&apos;");
  }

  /** Replacing whole-string, ampersand first, is the same as escaping each
      character on its own: no entity produced by one step is touched again. */
  lemma {:induction false} EscapeIsCharwise(s: string)
    ensures Escape(s) == EscapeChars(s)
  {
    if |s| == 0 {
    } else {
      assert s == [s[0]] + s[1..];
      EscapeAppend([s[0]], s[1..]);
      EscapeOneChar(s[0]);
      EscapeIsCharwise(s[1..]);
    }
  }

  /** The source's escape leaves none of `<`, `>`, `"` and `'` in its result. */
  lemma EscapeRemovesMarkup(s: string)
    ensures MarkupFree(Escape(s))
  {
    EscapeIsCharwise(s);
  }

  /** Text without reserved characters is embedded unchanged. */
  lemma EscapeKeepsPlainText(s: string)
    requires forall i :: 0 <= i < |s| ==> !Reserved(s[i])
    ensures Escape(s) == s
  {
    assert '&' !in s && '<' !in s && '>' !in s && '"' !in s && '\'' !in s;
  }

  /** An ampersand becomes exactly one `&amp;` ... */
  lemma AmpersandEscapedOnce()
    ensures Escape("&") == "&amp;"
  {
    EscapeOneChar('&');
  }

  /** ... so text that already looks like an entity, such as `&lt;`, is
      escaped again rather than left alone: an ampersand followed by plain
      text `t` becomes `&amp;` followed by `t`. */
  lemma EntityTextEscapedAgain(t: string)
    requires forall i :: 0 <= i < |t| ==> !Reserved(t[i])
    ensures Escape(['&'] + t) == "&amp;" + t
  {
    EscapeKeepsPlainText(t);
    EscapeOneChar('&');
    EscapeAppend(['&'], t);
  }

  lemma {:induction false} UnescapeAfterEntity(c: char, rest: string)
    ensures Unescape(EscapeChar(c) + rest) == [c] + Unescape(rest)
  {
    var e := EscapeChar(c);
    var s := e + rest;
    assert s[..|e|] == e && s[|e|..] == rest;
    if c == '&' {
      assert "&amp;" <= s;
    } else if c == '<' {
      assert s[1] == 'l';
      assert "&lt;" <= s;
    } else if c == '>' {
      assert s[1] == 'g';
      assert "&gt;" <= s;
    } else if c == '"' {
      assert s[1] == 'q';
      assert "&quot;" <= s;
    } else if c == '\'' {
      assert s[1] == 'a' && s[2] == 'p';
      assert "&apos;" <= s;
    } else {
      assert s[0] == c && s[1..] == rest;
    }
  }

  /** Reading escaped text back gives the original text: every reserved
      character, ampersand included, is escaped exactly once. */
  lemma {:induction false} EscapeRoundTrip(s: string)
    ensures Unescape(Escape(s)) == s
  {
    EscapeIsCharwise(s);
    EscapeCharsRoundTrip(s);
  }

  lemma {:induction false} EscapeCharsRoundTrip(s: string)
    ensures Unescape(EscapeChars(s)) == s
  {
    if |s| == 0 {
    } else {
      UnescapeAfterEntity(s[0], EscapeChars(s[1..]));
      EscapeCharsRoundTrip(s[1..]);
    }
  }
}
