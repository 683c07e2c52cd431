/**
 * HTML formatting of replies: `html.escape` with quotes, a bold header above the text, and the
 * choice between the text as it is, escaped, or converted from Markdown (the converter is
 * given as a function).
 */
module Formatting {
  import opened Base
  import opened Text

  /** The characters `html.escape` replaces. */
  predicate Special(c: char)
  {
    c == '&' || c == '<' || c == '>' || c == '"' || c == '\''
  }

  /** `html.escape` of one character. */
  function EscapeChar(c: char): (r: string)
    ensures '<' !in r && '>' !in r
    ensures !Special(c) ==> r == [c]
    ensures Special(c) ==> r != [] && r[0] == '&'
  {
    if c == '&' then "&amp;"
    else if c == '<' then "&lt;"
    else if c == '>' then "&gt;"
    else if c == '"' then "&quot;"
    else if c == '\'' then "&#x27;"
    else [c]
  }

  /** `html.escape(s)` (with `quote=True`): the replacement of `&` first and then the others is
      the same as replacing each character on its own. */
  function Escape(s: string): (r: string)
    ensures '<' !in r && '>' !in r
    ensures |r| >= |s|
  {
    if s == [] then [] else EscapeChar(s[0]) + Escape(s[1..])
  }

  /** The inverse of `Escape` on the five entities it writes. */
  function Unescape(s: string): (r: string)
    decreases |s|
  {
    if s == [] then []
    else if s[0] != '&' then [s[0]] + Unescape(s[1..])
    else if StartsWith(s, "&amp;") then "&" + Unescape(s[5..])
    else if StartsWith(s, "&lt;") then "<" + Unescape(s[4..])
    else if StartsWith(s, "&gt;") then ">" + Unescape(s[4..])
    else if StartsWith(s, "&quot;") then "\"" + Unescape(s[6..])
    else if StartsWith(s, "&#x27;") then "'" + Unescape(s[6..])
    else [s[0]] + Unescape(s[1..])
  }

  /** Unescaping reads `&amp;` back. */
  lemma UnescapeAmp(t: string)
    ensures Unescape("&amp;" + t) == "&" + Unescape(t)
  {
    var e := "&amp;" + t;
    assert e[..5] == "&amp;" && e[5..] == t;
  }

  /** Unescaping reads `&lt;` back. */
  lemma UnescapeLt(t: string)
    ensures Unescape("&lt;" + t) == "<" + Unescape(t)
  {
    var e := "&lt;" + t;
    assert e[1] == 'l' && e[..4] == "&lt;" && e[4..] == t;
  }

  /** Unescaping reads `&gt;` back. */
  lemma UnescapeGt(t: string)
    ensures Unescape("&gt;" + t) == ">" + Unescape(t)
  {
    var e := "&gt;" + t;
    assert e[1] == 'g' && e[..4] == "&gt;" && e[4..] == t;
  }

  /** Unescaping reads `&quot;` back. */
  lemma UnescapeQuot(t: string)
    ensures Unescape("&quot;" + t) == "\"" + Unescape(t)
  {
    var e := "&quot;" + t;
    assert e[1] == 'q' && e[..6] == "&quot;" && e[6..] == t;
  }

  /** Unescaping reads `&#x27;` back. */
  lemma UnescapeApos(t: string)
    ensures Unescape("&#x27;" + t) == "'" + Unescape(t)
  {
    var e := "&#x27;" + t;
    assert e[1] == '#' && e[..6] == "&#x27;" && e[6..] == t;
  }

  /** Unescaping reads one escaped character back. */
  lemma UnescapeChar(c: char, t: string)
    ensures Unescape(EscapeChar(c) + t) == [c] + Unescape(t)
  {
    if c == '&' {
      UnescapeAmp(t);
    } else if c == '<' {
      UnescapeLt(t);
    } else if c == '>' {
      UnescapeGt(t);
    } else if c == '"' {
      UnescapeQuot(t);
    } else if c == '\'' {
      UnescapeApos(t);
    } else {
      var e := EscapeChar(c) + t;
      assert e[1..] == t;
    }
  }

  /** Escaping loses nothing: unescaping gives the text back. */
  lemma {:induction false} EscapeRoundTrip(s: string)
    ensures Unescape(Escape(s)) == s
  {
    if s != [] {
      UnescapeChar(s[0], Escape(s[1..]));
      EscapeRoundTrip(s[1..]);
    }
  }

  /** Escaping two texts one after the other is escaping their concatenation. */
  lemma {:induction false} EscapeConcat(a: string, b: string)
    ensures Escape(a + b) == Escape(a) + Escape(b)
  {
    if a != [] {
      assert (a + b)[1..] == a[1..] + b;
      EscapeConcat(a[1..], b);
    } else {
      assert a + b == b;
    }
  }

  /** A text without any of the five characters is left as it is. */
  lemma {:induction false} EscapePlain(s: string)
    requires forall k :: 0 <= k < |s| ==> !Special(s[k])
    ensures Escape(s) == s
  {
    if s != [] {
      assert !Special(s[0]);
      EscapePlain(s[1..]);
    }
  }

  /** `not header` for `str | None` */
  predicate NoHeader(header: Option<string>)
  {
    header.None? || header.value == ""
  }

  /** The bold header line and the blank line after it. */
  function HeaderBlock(header: string): string
  {
    "<b>" + Escape(header) + "</b>\n\n"
  }

  /** `format_with_header` */
  function FormatWithHeader(header: Option<string>, text: string): (r: string)
    ensures EndsWith(r, Escape(text))
    ensures NoHeader(header) ==> '<' !in r && '>' !in r
  {
    var e := Escape(text);
    var r := if NoHeader(header) then e else HeaderBlock(header.value) + e;
    assert r[|r| - |e|..] == e;
    r
  }

  /** `format_with_header_raw` */
  function FormatWithHeaderRaw(header: Option<string>, text: string): (r: string)
    ensures EndsWith(r, text)
    ensures NoHeader(header) ==> r == text
  {
    var r := if NoHeader(header) then text else HeaderBlock(header.value) + text;
    assert r[|r| - |text|..] == text;
    r
  }

  /** The header block opens and closes the bold tag and, between them, holds only the escaped
      header, which reads back as the header. */
  lemma HeaderBlockSpec(header: string)
    ensures var b := HeaderBlock(header);
      var n := |Escape(header)|;
      |b| == n + 9 && b[..3] == "<b>" && b[n + 3..] == "</b>\n\n" && Unescape(b[3..n + 3]) == header
      && forall k :: 3 <= k < n + 3 ==> b[k] != '<' && b[k] != '>'
  {
    var e := Escape(header);
    var b := HeaderBlock(header);
    assert b[3..|e| + 3] == e;
    EscapeRoundTrip(header);
  }

  /** Without a header the text comes back escaped, with no tag in it; with one, the header
      block comes first and the escaped text after it, and both read back. */
  lemma FormatWithHeaderSpec(header: Option<string>, text: string)
    ensures var r := FormatWithHeader(header, text);
      NoHeader(header) ==> '<' !in r && '>' !in r && Unescape(r) == text
    ensures var r := FormatWithHeader(header, text);
      !NoHeader(header) ==> var b := HeaderBlock(header.value);
        r[..|b|] == b && Unescape(r[|b|..]) == text && '<' !in r[|b|..] && '>' !in r[|b|..]
  {
    EscapeRoundTrip(text);
    if !NoHeader(header) {
      var b := HeaderBlock(header.value);
      var r := FormatWithHeader(header, text);
      assert r[..|b|] == b && r[|b|..] == Escape(text);
    }
  }

  /** Without a header the text comes back as it is; with one, only the header is escaped and
      the text follows the header block untouched. */
  lemma FormatWithHeaderRawSpec(header: Option<string>, text: string)
    ensures NoHeader(header) ==> FormatWithHeaderRaw(header, text) == text
    ensures var r := FormatWithHeaderRaw(header, text);
      !NoHeader(header) ==> var b := HeaderBlock(header.value);
        r[..|b|] == b && r[|b|..] == text
  {
    if !NoHeader(header) {
      var b := HeaderBlock(header.value);
      var r := FormatWithHeaderRaw(header, text);
      assert r[..|b|] == b && r[|b|..] == text;
    }
  }

  /** `_markdown_to_html_simple` */
  type MarkdownConverter = string -> string

  /** `render_llm_text` */
  function RenderLlmText(text: string, formattingMode: string, allowRawHtml: bool, convert: MarkdownConverter): (r: string)
    ensures formattingMode == "markdown" ==> r == text
    ensures formattingMode != "markdown" && !allowRawHtml ==> '<' !in r && '>' !in r
  {
    if formattingMode == "markdown" then text
    else if !allowRawHtml then Escape(text)
    else convert(text)
  }

  /** Markdown mode passes the text through; without raw HTML the text is escaped, so it holds
      no tag and reads back; otherwise it is the converter's output. */
  lemma RenderLlmTextSpec(text: string, formattingMode: string, allowRawHtml: bool, convert: MarkdownConverter)
    ensures formattingMode == "markdown" ==> RenderLlmText(text, formattingMode, allowRawHtml, convert) == text
    ensures var r := RenderLlmText(text, formattingMode, allowRawHtml, convert);
      formattingMode != "markdown" && !allowRawHtml ==> '<' !in r && '>' !in r && Unescape(r) == text
    ensures formattingMode != "markdown" && allowRawHtml ==>
      RenderLlmText(text, formattingMode, allowRawHtml, convert) == convert(text)
  {
    EscapeRoundTrip(text);
  }
}
