/**
 * Cleaning of a session token pasted by a user: surrounding whitespace, a `Cookie:` header
 * name, a `sessionid=` key and any further cookie attributes after `;` are removed.
 */
module Auth {
  import opened Text

  /** `value.split(sep, 1)[1]`: what follows the first `sep`. */
  function After(value: string, sep: char): (r: string)
    requires sep in value
    ensures |r| < |value| && r == value[|value| - |r|..]
  {
    value[IndexOf(value, sep) + 1..]
  }

  /** `value.split(";", 1)[0]`: what precedes the first `;`. */
  function Before(value: string, sep: char): (r: string)
    ensures sep !in r && |r| <= |value| && r == value[..|r|]
  {
    if sep in value then value[..IndexOf(value, sep)] else value
  }

  /** A case-insensitive `cookie:` header name is dropped with the whitespace after it. */
  function DropCookie(value: string): string
  {
    if StartsWith(Lower(value), "cookie:") then
      assert Lower(value)[6] == ':';
      Strip(After(value, ':'))
    else value
  }

  /** A case-insensitive `sessionid=` key is dropped with the whitespace after it. */
  function DropSessionId(value: string): string
  {
    if StartsWith(Lower(value), "sessionid=") then
      assert Lower(value)[9] == '=';
      Strip(After(value, '='))
    else value
  }

  /** Everything after the first `;` is dropped, and what is left holds no `;`. */
  function CutAttributes(value: string): (r: string)
    ensures ';' !in r
    ensures ';' !in value ==> r == value
  {
    if ';' in value then StripWithin(Before(value, ';'), ';'); Strip(Before(value, ';')) else value
  }

  /** `_normalize_token`: the normalised token never holds a `;`. */
  function NormalizeToken(token: string): (r: string)
    ensures ';' !in r
  {
    CutAttributes(DropSessionId(DropCookie(Strip(token))))
  }

  /** Stripping keeps only characters of the string. */
  lemma StripWithin(s: string, c: char)
    requires c !in s
    ensures c !in Strip(s)
  {
    var l := LStrip(s);
    assert l == s[|s| - |l|..];
  }

  /** Surrounding whitespace is removed before anything else is looked at. */
  lemma StripFirst(token: string)
    ensures NormalizeToken(token) == NormalizeToken(Strip(token))
  {
    StripIdempotent(token);
  }

  /** Under a case-insensitive prefix, the first such character is the prefix's last. */
  lemma PrefixSeparator(value: string, prefix: string, sep: char)
    requires StartsWith(Lower(value), prefix) && prefix != [] && prefix[|prefix| - 1] == sep
    requires forall k :: 0 <= k < |prefix| - 1 ==> prefix[k] != sep
    requires !('a' <= sep <= 'z')
    ensures sep in value && IndexOf(value, sep) == |prefix| - 1
  {
    var n := |prefix| - 1;
    assert Lower(value)[n] == prefix[n];
    assert LowerChar(value[n]) == sep;
    assert value[n] == sep;
    forall k | 0 <= k < n
      ensures value[k] != sep
    {
      assert Lower(value)[k] == prefix[k];
      assert LowerChar(value[k]) == prefix[k];
    }
    assert sep !in value[..n];
  }

  /** A leading `cookie:` in any case is removed and the rest stripped. */
  lemma CookieRemoved(value: string)
    requires StartsWith(Lower(value), "cookie:")
    ensures DropCookie(value) == Strip(value[7..])
  {
    PrefixSeparator(value, "cookie:", ':');
  }

  /** A leading `sessionid=` in any case is removed and the rest stripped. */
  lemma SessionIdRemoved(value: string)
    requires StartsWith(Lower(value), "sessionid=")
    ensures DropSessionId(value) == Strip(value[10..])
  {
    PrefixSeparator(value, "sessionid=", '=');
  }

  /** `Cookie: sessionid=abc; Path=/` is cleaned down to `abc`: both prefixes go, in that order,
      and so does what follows the `;`. */
  lemma CookieThenSessionId(token: string)
    requires var v := Strip(token); StartsWith(Lower(v), "cookie:") && StartsWith(Lower(Strip(v[7..])), "sessionid=")
    ensures var rest := Strip(Strip(Strip(token)[7..])[10..]);
      NormalizeToken(token) == if ';' in rest then Strip(Before(rest, ';')) else rest
  {
    var v := Strip(token);
    CookieRemoved(v);
    SessionIdRemoved(Strip(v[7..]));
  }

  /** A trimmed token with neither prefix and no `;` comes back as it is. */
  lemma PlainTokenKept(token: string)
    requires Strip(token) == token
    requires !StartsWith(Lower(token), "cookie:") && !StartsWith(Lower(token), "sessionid=")
    requires ';' !in token
    ensures NormalizeToken(token) == token
  {
  }
}
