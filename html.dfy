/**
 * `escapeHtml(s)`: five `replaceAll` calls in sequence, `&` first, then `<`,
 * `>`, `"` and `'`. The model proves that the chain amounts to escaping each
 * character on its own, that the result holds none of the four markup
 * characters, and that HTML entity decoding gives the input back.
 */
module Html {

  /** `s.replaceAll(c, rep)` for a one-character pattern: each occurrence of `c`, left to right. */
  function ReplaceAll(s: string, c: char, rep: string): (r: string)
    ensures c !in s ==> r == s
    ensures c !in rep ==> c !in r
  {
    if s == [] then []
    else (if s[0] == c then rep else [s[0]]) + ReplaceAll(s[1..], c, rep)
  }

  const Ampersand := "&amp;"
  const LessThan := "&lt;"
  const GreaterThan := "&gt;"
  const Quote := "&quot;"
  const Apostrophe := "&#039;"

  /** `escapeHtml(s)`. */
  function EscapeHtml(s: string): string {
    var a := ReplaceAll(s, '&', Ampersand);
    var b := ReplaceAll(a, '<', LessThan);
    var c := ReplaceAll(b, '>', GreaterThan);
    var d := ReplaceAll(c, '"', Quote);
    ReplaceAll(d, '\'', Apostrophe)
  }

  /** The entity one character becomes, or the character itself. */
  function EscapeChar(c: char): string {
    match c
    case '&' => Ampersand
    case '<' => LessThan
    case '>' => GreaterThan
    case '"' => Quote
    case '\'' => Apostrophe
    case _ => [c]
  }

  /** Reference definition: every character escaped independently. */
  function EscapeEach(s: string): string {
    if s == [] then [] else EscapeChar(s[0]) + EscapeEach(s[1..])
  }

  /** HTML entity decoding of the five entities `escapeHtml` produces, as a browser reads them. */
  function Unescape(s: string): string
    decreases |s|
  {
    if s == [] then []
    else if |s| >= 5 && s[..5] == Ampersand then "&" + Unescape(s[5..])
    else if |s| >= 4 && s[..4] == LessThan then "<" + Unescape(s[4..])
    else if |s| >= 4 && s[..4] == GreaterThan then ">" + Unescape(s[4..])
    else if |s| >= 6 && s[..6] == Quote then "\"" + Unescape(s[6..])
    else if |s| >= 6 && s[..6] == Apostrophe then "'" + Unescape(s[6..])
    else [s[0]] + Unescape(s[1..])
  }

  lemma {:induction false} ReplaceAllAppend(a: string, b: string, c: char, rep: string)
    ensures ReplaceAll(a + b, c, rep) == ReplaceAll(a, c, rep) + ReplaceAll(b, c, rep)
    decreases |a|
  {
    if a != [] {
      var head := if a[0] == c then rep else [a[0]];
      TailOfAppend(a, b);
      ReplaceAllAppend(a[1..], b, c, rep);
      Regroup(head, ReplaceAll(a[1..], c, rep), ReplaceAll(b, c, rep));
    } else {
      assert a + b == b;
    }
  }

  // Solver hints: sequence facts kept in small lemmas of their own, so that
  // ReplaceAllAppend does not derive them among the recursive definitions.

  lemma TailOfAppend(a: string, b: string)
    requires a != []
    ensures (a + b)[0] == a[0] && (a + b)[1..] == a[1..] + b
  {
  }

  lemma Regroup(x: string, y: string, z: string)
    ensures x + (y + z) == (x + y) + z
  {
  }

  lemma ReplaceAllSingle(x: char, c: char, rep: string)
    ensures ReplaceAll([x], c, rep) == if x == c then rep else [x]
  {
    assert [x][1..] == [];
  }

  /** The steps after the first leave text without markup characters alone. */
  lemma LaterStepsKeep(e: string)
    requires MarkupFree(e)
    ensures ReplaceAll(ReplaceAll(ReplaceAll(ReplaceAll(e, '<', LessThan), '>', GreaterThan), '"', Quote), '\'', Apostrophe) == e
  {
  }

  /** The last three steps leave text without `>`, `"` or `'` alone. */
  lemma LastThreeKeep(e: string)
    requires '>' !in e && '"' !in e && '\'' !in e
    ensures ReplaceAll(ReplaceAll(ReplaceAll(e, '>', GreaterThan), '"', Quote), '\'', Apostrophe) == e
  {
  }

  /** The five-step chain applied to a single character gives that character's entity. */
  lemma EscapeHtmlOneChar(c: char)
    ensures EscapeHtml([c]) == EscapeChar(c)
  {
    if c == '&' {
      EscapeAmpersand(c);
    } else if c == '<' {
      EscapeLessThan(c);
    } else if c == '>' {
      EscapeGreaterThan(c);
    } else if c == '"' {
      EscapeQuote(c);
    } else if c == '\'' {
      EscapeApostrophe(c);
    } else {
      EscapePlain(c);
    }
  }

  lemma EscapeAmpersand(c: char)
    requires c == '&'
    ensures EscapeHtml([c]) == Ampersand
  {
    ReplaceAllSingle(c, '&', Ampersand);
    LaterStepsKeep(Ampersand);
  }

  lemma EscapeLessThan(c: char)
    requires c == '<'
    ensures EscapeHtml([c]) == LessThan
  {
    ReplaceAllSingle(c, '&', Ampersand);
    ReplaceAllSingle(c, '<', LessThan);
    LastThreeKeep(LessThan);
  }

  lemma EscapeGreaterThan(c: char)
    requires c == '>'
    ensures EscapeHtml([c]) == GreaterThan
  {
    ReplaceAllSingle(c, '&', Ampersand);
    ReplaceAllSingle(c, '<', LessThan);
    ReplaceAllSingle(c, '>', GreaterThan);
  }

  lemma EscapeQuote(c: char)
    requires c == '"'
    ensures EscapeHtml([c]) == Quote
  {
    ReplaceAllSingle(c, '&', Ampersand);
    ReplaceAllSingle(c, '<', LessThan);
    ReplaceAllSingle(c, '>', GreaterThan);
    ReplaceAllSingle(c, '"', Quote);
  }

  lemma EscapeApostrophe(c: char)
    requires c == '\''
    ensures EscapeHtml([c]) == Apostrophe
  {
    ReplaceAllSingle(c, '&', Ampersand);
    ReplaceAllSingle(c, '<', LessThan);
    ReplaceAllSingle(c, '>', GreaterThan);
    ReplaceAllSingle(c, '"', Quote);
    ReplaceAllSingle(c, '\'', Apostrophe);
  }

  lemma EscapePlain(c: char)
    requires c != '&' && c != '<' && c != '>' && c != '"' && c != '\''
    ensures EscapeHtml([c]) == [c]
  {
    ReplaceAllSingle(c, '&', Ampersand);
    ReplaceAllSingle(c, '<', LessThan);
    ReplaceAllSingle(c, '>', GreaterThan);
    ReplaceAllSingle(c, '"', Quote);
    ReplaceAllSingle(c, '\'', Apostrophe);
  }

  /** The sequential `replaceAll` chain equals escaping each character on its own. */
  lemma {:induction false} EscapeHtmlIsPerCharacter(s: string)
    ensures EscapeHtml(s) == EscapeEach(s)
    decreases |s|
  {
    if s != [] {
      assert s == [s[0]] + s[1..];
      var a, b := [s[0]], s[1..];
      var a1, b1 := ReplaceAll(a, '&', Ampersand), ReplaceAll(b, '&', Ampersand);
      ReplaceAllAppend(a, b, '&', Ampersand);
      var a2, b2 := ReplaceAll(a1, '<', LessThan), ReplaceAll(b1, '<', LessThan);
      ReplaceAllAppend(a1, b1, '<', LessThan);
      var a3, b3 := ReplaceAll(a2, '>', GreaterThan), ReplaceAll(b2, '>', GreaterThan);
      ReplaceAllAppend(a2, b2, '>', GreaterThan);
      var a4, b4 := ReplaceAll(a3, '"', Quote), ReplaceAll(b3, '"', Quote);
      ReplaceAllAppend(a3, b3, '"', Quote);
      ReplaceAllAppend(a4, b4, '\'', Apostrophe);
      assert EscapeHtml(s) == EscapeHtml(a) + EscapeHtml(b);
      EscapeHtmlOneChar(s[0]);
      EscapeHtmlIsPerCharacter(b);
    }
  }

  /** Decoding reads one escaped character back off the front. */
  lemma UnescapeFront(c: char, rest: string)
    ensures Unescape(EscapeChar(c) + rest) == [c] + Unescape(rest)
  {
    var t := EscapeChar(c) + rest;
    if c == '&' {
      assert t[..5] == Ampersand && t[5..] == rest;
    } else if c == '<' {
      assert t[..4] == LessThan && t[4..] == rest;
      assert |t| >= 5 ==> t[..5][1] == 'l';
    } else if c == '>' {
      UnescapeGreaterThan(c, rest);
    } else if c == '"' {
      UnescapeQuote(c, rest);
    } else if c == '\'' {
      UnescapeApostrophe(c, rest);
    } else {
      assert t[0] == c && t[1..] == rest;
      assert |t| >= 4 ==> t[..4][0] == c;
      assert |t| >= 5 ==> t[..5][0] == c;
      assert |t| >= 6 ==> t[..6][0] == c;
    }
  }

  lemma UnescapeGreaterThan(c: char, rest: string)
    requires c == '>'
    ensures Unescape(GreaterThan + rest) == [c] + Unescape(rest)
  {
    var t := GreaterThan + rest;
    assert t[..4] == GreaterThan && t[4..] == rest;
    assert |t| >= 5 ==> t[..5][1] == 'g';
  }

  lemma UnescapeQuote(c: char, rest: string)
    requires c == '"'
    ensures Unescape(Quote + rest) == [c] + Unescape(rest)
  {
    var t := Quote + rest;
    assert t[..6] == Quote && t[6..] == rest;
    assert t[..4][1] == 'q' && t[..5][1] == 'q';
  }

  lemma UnescapeApostrophe(c: char, rest: string)
    requires c == '\''
    ensures Unescape(Apostrophe + rest) == [c] + Unescape(rest)
  {
    var t := Apostrophe + rest;
    assert t[..6] == Apostrophe && t[6..] == rest;
    assert t[..4][1] == '#' && t[..5][1] == '#' && t[..6][1] == '#';
  }

  lemma {:induction false} UnescapeEscapeEach(s: string)
    ensures Unescape(EscapeEach(s)) == s
    decreases |s|
  {
    if s != [] {
      UnescapeFront(s[0], EscapeEach(s[1..]));
      UnescapeEscapeEach(s[1..]);
      assert s == [s[0]] + s[1..];
    }
  }

  /** None of the characters that could open a tag or end an attribute value. */
  predicate MarkupFree(s: string) {
    '<' !in s && '>' !in s && '"' !in s && '\'' !in s
  }

  lemma {:induction false} EscapeEachMarkupFree(s: string)
    ensures MarkupFree(EscapeEach(s))
    decreases |s|
  {
    if s != [] {
      EscapeEachMarkupFree(s[1..]);
      var e := EscapeChar(s[0]);
      assert MarkupFree(e);
      assert forall x :: x in e + EscapeEach(s[1..]) ==> x in e || x in EscapeEach(s[1..]);
    }
  }

  /** The escaped text contains no `<`, `>`, `"` or `'`. */
  lemma EscapeHtmlMarkupFree(s: string)
    ensures MarkupFree(EscapeHtml(s))
  {
    EscapeHtmlIsPerCharacter(s);
    EscapeEachMarkupFree(s);
  }

  /** Escaping loses nothing: decoding the entities gives back the original text. */
  lemma UnescapeEscapeHtml(s: string)
    ensures Unescape(EscapeHtml(s)) == s
  {
    EscapeHtmlIsPerCharacter(s);
    UnescapeEscapeEach(s);
  }
}
