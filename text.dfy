/**
 * The two string helpers of the script: `capitalizeFirst`, used for the
 * category label of a card, and `escapeHtml`, through which every question
 * and answer passes before it is put into markup.
 *
 * `escapeHtml` takes its result from the browser (it sets a detached
 * element's text and reads back its markup). That result is fixed by the
 * HTML Living Standard, section 13.3 "Serializing HTML fragments",
 * algorithm "escaping a string" outside attribute mode: `&` becomes `&amp;`,
 * U+00A0 becomes `&nbsp;`, `<` becomes `&lt;`, `>` becomes `&gt;`, and
 * every other character is kept.
 */
module Text {

  const NoBreakSpace: char := '\U{A0}'

  /** Upper-casing of one character, restricted to ASCII letters. */
  function UpperChar(c: char): (u: char)
    ensures 'a' <= c <= 'z' ==> 'A' <= u <= 'Z' && u as int == c as int - 32
    ensures !('a' <= c <= 'z') ==> u == c
  {
    if 'a' <= c <= 'z' then (c as int - 32) as char else c
  }

  /** `str.charAt(0).toUpperCase() + str.slice(1)` */
  function CapitalizeFirst(s: string): (r: string)
    ensures |r| == |s|
    ensures forall i :: 1 <= i < |s| ==> r[i] == s[i]
    ensures s != [] ==> r[0] == UpperChar(s[0]) && !('a' <= r[0] <= 'z')
  {
    if s == [] then [] else [UpperChar(s[0])] + s[1..]
  }

  /** A label that is already capitalised is left as it is. */
  lemma CapitalizeFirstIdempotent(s: string)
    ensures CapitalizeFirst(CapitalizeFirst(s)) == CapitalizeFirst(s)
  {
  }

  /** The four characters the serializer replaces. */
  predicate IsSpecial(c: char) {
    c == '&' || c == NoBreakSpace || c == '<' || c == '>'
  }

  /** No character of `s` could open or close a tag. */
  predicate NoMarkup(s: string) {
    forall i :: 0 <= i < |s| ==> s[i] != '<' && s[i] != '>'
  }

  /** The replacement text of one character. */
  function EscapeChar(c: char): (r: string)
    ensures NoMarkup(r)
    ensures |r| >= 1
    ensures IsSpecial(c) <==> r[0] == '&' && |r| > 1
    ensures !IsSpecial(c) ==> r == [c]
  {
    if c == '&' then "&amp;"
    else if c == NoBreakSpace then "&nbsp;"
    else if c == '<' then "&lt;"
    else if c == '>' then "&gt;"
    else [c]
  }

  /** `escapeHtml(text)`: the character-by-character replacement. */
  function EscapeHtml(s: string): (r: string)
    ensures NoMarkup(r)
    ensures |r| >= |s|
  {
    if s == [] then [] else EscapeChar(s[0]) + EscapeHtml(s[1..])
  }

  /**
   * Reading escaped text back as text: the four character references the
   * serializer produces are turned back into their characters, everything
   * else is read as itself.
   */
  function UnescapeHtml(s: string): string
    decreases |s|
  {
    if s == [] then []
    else if |s| >= 5 && s[..5] == "&amp;" then "&" + UnescapeHtml(s[5..])
    else if |s| >= 6 && s[..6] == "&nbsp;" then [NoBreakSpace] + UnescapeHtml(s[6..])
    else if |s| >= 4 && s[..4] == "&lt;" then "<" + UnescapeHtml(s[4..])
    else if |s| >= 4 && s[..4] == "&gt;" then ">" + UnescapeHtml(s[4..])
    else [s[0]] + UnescapeHtml(s[1..])
  }

  /** Escaping loses nothing: the text read back is the text put in. */
  lemma {:induction false} EscapeRoundTrip(s: string)
    ensures UnescapeHtml(EscapeHtml(s)) == s
  {
    if s != [] {
      var e, rest := EscapeChar(s[0]), EscapeHtml(s[1..]);
      assert EscapeHtml(s) == e + rest;
      EscapeRoundTrip(s[1..]);
      assert (e + rest)[|e|..] == rest;
      if s[0] == '&' {
        assert (e + rest)[..5] == "&amp;";
      } else if s[0] == NoBreakSpace {
        assert (e + rest)[..6] == "&nbsp;" && (e + rest)[1] == 'n';
      } else if s[0] == '<' {
        assert (e + rest)[..4] == "&lt;" && (e + rest)[1] == 'l';
      } else if s[0] == '>' {
        assert (e + rest)[..4] == "&gt;" && (e + rest)[1] == 'g';
      } else {
        assert (e + rest)[0] == s[0];
      }
    }
  }

  /** Text without any of the four characters is put into markup as it is. */
  lemma {:induction false} EscapePlainText(s: string)
    requires forall i :: 0 <= i < |s| ==> !IsSpecial(s[i])
    ensures EscapeHtml(s) == s
  {
    if s != [] {
      EscapePlainText(s[1..]);
    }
  }

  /** Escaping works character by character, so it distributes over concatenation. */
  lemma {:induction false} EscapeConcat(a: string, b: string)
    ensures EscapeHtml(a + b) == EscapeHtml(a) + EscapeHtml(b)
  {
    if a != [] {
      assert (a + b)[1..] == a[1..] + b;
      EscapeConcat(a[1..], b);
    } else {
      assert a + b == b;
    }
  }
}
