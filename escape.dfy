/**
 * escapeHtml: every '&', '<', '>', '"' and "'" of the input is replaced by its
 * character reference; every other character is kept.
 */
module HtmlEscape {

  /** The five characters escapeHtml replaces. */
  predicate IsSpecial(c: char) {
    c == '&' || c == '<' || c == '>' || c == '"' || c == '\''
  }

  /** The five references escapeHtml writes. */
  predicate StartsWithReference(t: string) {
    "&amp;" <= t || "&lt;" <= t || "&gt;" <= t || "&quot;" <= t || "&#39;" <= t
  }

  /** The image of one character under escapeHtml's lookup table. */
  function EscapeChar(c: char): (r: string)
    ensures IsSpecial(c) ==> StartsWithReference(r) && |r| >= 4
    ensures !IsSpecial(c) ==> r == [c]
  {
    match c
    case '&' => "&amp;"
    case '<' => "&lt;"
    case '>' => "&gt;"
    case '"' => "&quot;"
    case '\'' => "&#39;"
    case _ => [c]
  }

  function EscapeHtml(s: string): string {
    if s == [] then [] else EscapeChar(s[0]) + EscapeHtml(s[1..])
  }

  /** Decodes the five references and keeps every other character: the inverse of EscapeHtml. */
  function Unescape(t: string): string
    decreases |t|
  {
    if t == [] then []
    else if "&amp;" <= t then "&" + Unescape(t[5..])
    else if "&lt;" <= t then "<" + Unescape(t[4..])
    else if "&gt;" <= t then ">" + Unescape(t[4..])
    else if "&quot;" <= t then "\"" + Unescape(t[6..])
    else if "&#39;" <= t then "'" + Unescape(t[5..])
    else [t[0]] + Unescape(t[1..])
  }

  /** Escaping works character by character: it distributes over concatenation. */
  lemma {:induction false} EscapeConcat(a: string, b: string)
    ensures EscapeHtml(a + b) == EscapeHtml(a) + EscapeHtml(b)
  {
    if a == [] {
      assert a + b == b;
    } else {
      assert (a + b)[0] == a[0];
      assert (a + b)[1..] == a[1..] + b;
      EscapeConcat(a[1..], b);
    }
  }

  /** The output is the concatenation of the images of the input's characters, one after another. */
  lemma {:induction false} EscapeSnoc(s: string, c: char)
    ensures EscapeHtml(s + [c]) == EscapeHtml(s) + EscapeChar(c)
  {
    EscapeConcat(s, [c]);
    assert EscapeHtml([c]) == EscapeChar(c) + EscapeHtml([]);
  }

  /** None of '<', '>', '"', "'" survives escaping. */
  lemma {:induction false} NoMarkupInOutput(s: string)
    ensures forall i :: 0 <= i < |EscapeHtml(s)| ==> EscapeHtml(s)[i] != '<' && EscapeHtml(s)[i] != '>'
    ensures forall i :: 0 <= i < |EscapeHtml(s)| ==> EscapeHtml(s)[i] != '"' && EscapeHtml(s)[i] != '\''
  {
    if s != [] {
      NoMarkupInOutput(s[1..]);
      var head := EscapeChar(s[0]);
      assert forall i :: 0 <= i < |head| ==> head[i] != '<' && head[i] != '>' && head[i] != '"' && head[i] != '\'';
    }
  }

  /** Every '&' of the output begins one of the five references. */
  lemma {:induction false} AmpersandsBeginReferences(s: string, i: nat)
    requires i < |EscapeHtml(s)| && EscapeHtml(s)[i] == '&'
    ensures StartsWithReference(EscapeHtml(s)[i..])
  {
    var head := EscapeChar(s[0]);
    var rest := EscapeHtml(s[1..]);
    assert EscapeHtml(s) == head + rest;
    if i < |head| {
      assert IsSpecial(s[0]) && i == 0;
      assert head <= EscapeHtml(s);
    } else {
      assert EscapeHtml(s)[i..] == rest[i - |head|..];
      AmpersandsBeginReferences(s[1..], i - |head|);
    }
  }

  /** An input without any of the five characters is returned unchanged, and only such an input is. */
  lemma {:induction false} UnchangedIffNoSpecial(s: string)
    ensures EscapeHtml(s) == s <==> forall i :: 0 <= i < |s| ==> !IsSpecial(s[i])
  {
    if s != [] {
      UnchangedIffNoSpecial(s[1..]);
      LengthGrows(s[1..]);
      if IsSpecial(s[0]) {
        assert |EscapeHtml(s)| > |s|;
      }
    }
  }

  /** Escaping never shortens its input. */
  lemma {:induction false} LengthGrows(s: string)
    ensures |EscapeHtml(s)| >= |s|
  {
    if s != [] {
      LengthGrows(s[1..]);
    }
  }

  /** Unescape undoes EscapeHtml: no information is lost by escaping. */
  lemma {:induction false} UnescapeEscape(s: string)
    ensures Unescape(EscapeHtml(s)) == s
  {
    if s != [] {
      var head := EscapeChar(s[0]);
      var rest := EscapeHtml(s[1..]);
      var t := head + rest;
      assert EscapeHtml(s) == t;
      UnescapeEscape(s[1..]);
      assert t[|head|..] == rest;
      UnescapeHead(s[0], rest);
      assert s == [s[0]] + s[1..];
    }
  }

  /** Unescape reads back the image of one character and goes on with what follows. */
  lemma UnescapeHead(c: char, rest: string)
    ensures Unescape(EscapeChar(c) + rest) == [c] + Unescape(rest)
  {
    if IsSpecial(c) {
      UnescapeReference(c, rest);
    } else {
      UnescapePlain(c, rest);
    }
  }

  lemma UnescapeReference(c: char, rest: string)
    requires IsSpecial(c)
    ensures Unescape(EscapeChar(c) + rest) == [c] + Unescape(rest)
  {
    var t := EscapeChar(c) + rest;
    match c
    case '&' => assert t[..5] == "&amp;" && t[5..] == rest;
    case '<' => assert t[..4] == "&lt;" && t[4..] == rest && t[1] == 'l';
    case '>' => assert t[..4] == "&gt;" && t[4..] == rest && t[1] == 'g';
    case '"' => assert t[..6] == "&quot;" && t[6..] == rest && t[1] == 'q';
    case '\'' => assert t[..5] == "&#39;" && t[5..] == rest && t[1] == '#';
  }

  lemma UnescapePlain(c: char, rest: string)
    requires !IsSpecial(c)
    ensures Unescape(EscapeChar(c) + rest) == [c] + Unescape(rest)
  {
    var t := EscapeChar(c) + rest;
    assert t[0] == c && t[1..] == rest;
    assert !StartsWithReference(t) by {
      assert c != '&';
    }
  }

  /** Distinct inputs have distinct escapings. */
  lemma EscapeInjective(a: string, b: string)
    requires EscapeHtml(a) == EscapeHtml(b)
    ensures a == b
  {
    UnescapeEscape(a);
    UnescapeEscape(b);
  }
}
