/**
 * The part of Python's `urllib.parse.urlsplit` that the adapters rely on: the
 * authority ("netloc", section 3.2 of RFC 3986) of a URL, and the
 * case-preserving origin-domain helper shared by the Adzuna, Remotive,
 * Arbeitnow, RemoteOK and We Work Remotely adapters.
 */
module Urls {
  import opened Wrappers
  import opened Strings

  /** First index of `c` in `s`, or `|s|` when `c` does not occur. */
  function IndexOf(s: string, c: char): (r: nat)
    ensures r <= |s|
    ensures r < |s| ==> s[r] == c
    ensures forall k :: 0 <= k < r ==> s[k] != c
  {
    if s == [] then 0 else if s[0] == c then 0 else 1 + IndexOf(s[1..], c)
  }

  predicate IsNetlocDelimiter(c: char) { c == '/' || c == '?' || c == '#' }

  /** First index of `/`, `?` or `#` in `s`, or `|s|`. */
  function DelimiterIndex(s: string): (r: nat)
    ensures r <= |s|
    ensures r < |s| ==> IsNetlocDelimiter(s[r])
    ensures forall k :: 0 <= k < r ==> !IsNetlocDelimiter(s[k])
  {
    if s == [] then 0 else if IsNetlocDelimiter(s[0]) then 0 else 1 + DelimiterIndex(s[1..])
  }

  /** urlsplit first strips C0 control characters and spaces off the front. */
  function LStripControl(s: string): (r: string)
    ensures r == [] || r[0] > ' '
  {
    if s != [] && s[0] <= ' ' then LStripControl(s[1..]) else s
  }

  predicate IsUnsafe(c: char) { c == '\t' || c == '\r' || c == '\n' }

  /** urlsplit then deletes every tab, carriage return and line feed. */
  function RemoveUnsafe(s: string): (r: string)
    ensures forall k :: 0 <= k < |r| ==> !IsUnsafe(r[k])
  {
    if s == [] then []
    else (if IsUnsafe(s[0]) then [] else [s[0]]) + RemoveUnsafe(s[1..])
  }

  lemma {:induction false} RemoveUnsafeNone(s: string)
    requires forall k :: 0 <= k < |s| ==> !IsUnsafe(s[k])
    ensures RemoveUnsafe(s) == s
  {
    if s != [] {
      RemoveUnsafeNone(s[1..]);
      assert [s[0]] + s[1..] == s;
    }
  }

  predicate IsAsciiAlpha(c: char) { 'a' <= c <= 'z' || 'A' <= c <= 'Z' }

  predicate IsSchemeChar(c: char) {
    IsAsciiAlpha(c) || '0' <= c <= '9' || c == '+' || c == '-' || c == '.'
  }

  /** The text after `scheme:` when the URL starts with a well-formed scheme, else the URL. */
  function AfterScheme(u: string): string {
    var i := IndexOf(u, ':');
    if 0 < i < |u| && IsAsciiAlpha(u[0]) && forall k :: 0 <= k < i ==> IsSchemeChar(u[k])
    then u[i + 1..]
    else u
  }

  /**
   * `urlsplit(url).netloc`: the text between a leading `//` and the next `/`, `?`
   * or `#`; `""` when there is no `//`. `None` stands for the ValueError urlsplit
   * raises when the authority holds only one of `[` and `]`.
   */
  function Netloc(url: string): (r: Option<string>)
    ensures r.Some? ==> forall k :: 0 <= k < |r.value| ==> !IsNetlocDelimiter(r.value[k])
    ensures r.Some? ==> ('[' in r.value <==> ']' in r.value)
  {
    var u := AfterScheme(RemoveUnsafe(LStripControl(url)));
    if |u| >= 2 && u[..2] == "//" then
      var rest := u[2..];
      var n := rest[..DelimiterIndex(rest)];
      if ('[' in n) != (']' in n) then None else Some(n)
    else Some("")
  }

  /** A host without delimiters, brackets or control characters. */
  predicate PlainHost(h: string) {
    forall k :: 0 <= k < |h| ==> h[k] > ' ' && !IsNetlocDelimiter(h[k]) && h[k] != '[' && h[k] != ']'
  }

  lemma AfterHttpsScheme(rest: string)
    ensures AfterScheme("https:" + rest) == rest
  {
    var u := "https:" + rest;
    assert u[..6] == "https:";
    assert u[5] == ':' && u[0] != ':' && u[1] != ':' && u[2] != ':' && u[3] != ':' && u[4] != ':';
    assert IndexOf(u, ':') == 5;
    assert u[6..] == rest;
  }

  lemma DelimiterIndexOfHost(h: string, path: string)
    requires PlainHost(h)
    requires path == [] || path[0] == '/'
    ensures DelimiterIndex(h + path) == |h|
  {
    var rest := h + path;
    assert forall k :: 0 <= k < |h| ==> rest[k] == h[k];
    assert |h| < |rest| ==> rest[|h|] == path[0];
  }

  /** The authority of `https://host/path` is `host`. */
  lemma NetlocOfHttps(h: string, path: string)
    requires PlainHost(h)
    requires path == [] || path[0] == '/'
    requires forall k :: 0 <= k < |path| ==> !IsUnsafe(path[k])
    ensures Netloc("https://" + h + path) == Some(h)
  {
    var rest := h + path;
    var url := "https:" + ("//" + rest);
    assert url == "https://" + h + path;
    assert forall k :: 0 <= k < |url| ==> !IsUnsafe(url[k]) by {
      forall k | 0 <= k < |url| ensures !IsUnsafe(url[k]) {
        if k >= 8 + |h| { assert url[k] == path[k - 8 - |h|]; }
        else if k >= 8 { assert url[k] == h[k - 8]; }
      }
    }
    assert LStripControl(url) == url;
    RemoveUnsafeNone(url);
    AfterHttpsScheme("//" + rest);
    assert ("//" + rest)[..2] == "//" && ("//" + rest)[2..] == rest;
    DelimiterIndexOfHost(h, path);
    assert rest[..|h|] == h;
  }

  /**
   * `_origin_domain` of the Adzuna, Remotive, Arbeitnow, RemoteOK and We Work
   * Remotely adapters: every `www.` is removed but the host is NOT lower-cased,
   * and a URL without an authority gives `""` rather than `None`.
   */
  function OriginDomainAsIs(url: Option<string>): (r: Option<string>)
    ensures r.None? <==> !Truthy(url) || Netloc(url.value).None?
  {
    if !Truthy(url) then None
    else match Netloc(url.value)
      case None => None
      case Some(n) => Some(ReplaceAll(n, "www.", ""))
  }

  /** A non-empty URL without an authority gives the empty domain, not `None`. */
  lemma OriginDomainAsIsWithoutAuthority(url: string)
    requires url != [] && url[0] > ' ' && url[0] != '/' && ':' !in url
    ensures OriginDomainAsIs(Some(url)) == Some("")
  {
    var v := RemoveUnsafe(LStripControl(url));
    assert LStripControl(url) == url;
    assert v == [] || v[0] == url[0] by {
      if url != [] && !IsUnsafe(url[0]) {
        assert v == [url[0]] + RemoveUnsafe(url[1..]);
      }
    }
    assert ':' !in v by {
      RemoveUnsafeSubset(url, ':');
    }
  }

  lemma {:induction false} RemoveUnsafeSubset(s: string, c: char)
    requires c !in s
    ensures c !in RemoveUnsafe(s)
  {
    if s != [] {
      RemoveUnsafeSubset(s[1..], c);
    }
  }

  /** The host keeps its letter case: only an exact lower-case `www.` is removed. */
  lemma OriginDomainAsIsKeepsCase(url: string, n: string)
    requires url != [] && Netloc(url) == Some(n) && !Contains(n, "www.")
    ensures OriginDomainAsIs(Some(url)) == Some(n)
  {
    ReplaceAllAbsent(n, "www.", "");
  }

  // ------------------------------------------------------- percent-encoding

  /** The characters `quote(s, safe="/")` leaves as they are. */
  predicate IsQuoteSafe(c: char) {
    IsAsciiAlpha(c) || '0' <= c <= '9' || c == '_' || c == '.' || c == '-' || c == '~' || c == '/'
  }

  predicate IsHexUpper(c: char) { '0' <= c <= '9' || 'A' <= c <= 'F' }

  function HexDigit(d: nat): (c: char)
    requires d < 16
    ensures IsHexUpper(c)
  {
    if d < 10 then ('0' as int + d) as char else ('A' as int + d - 10) as char
  }

  /** The UTF-8 encoding of one Unicode scalar value. */
  function Utf8(c: char): (r: seq<nat>)
    ensures 1 <= |r| <= 4
    ensures forall k :: 0 <= k < |r| ==> r[k] < 256
  {
    var cp := c as int;
    if cp < 0x80 then [cp]
    else if cp < 0x800 then [0xC0 + cp / 64, 0x80 + cp % 64]
    else if cp < 0x10000 then [0xE0 + cp / 4096, 0x80 + (cp / 64) % 64, 0x80 + cp % 64]
    else [0xF0 + cp / 262144, 0x80 + (cp / 4096) % 64, 0x80 + (cp / 64) % 64, 0x80 + cp % 64]
  }

  /** `%XX` for each byte, with upper-case hexadecimal digits. */
  function PercentBytes(bs: seq<nat>): (r: string)
    requires forall k :: 0 <= k < |bs| ==> bs[k] < 256
    ensures |r| == 3 * |bs|
    ensures forall k :: 0 <= k < |r| ==> r[k] == '%' || IsHexUpper(r[k])
  {
    if bs == [] then [] else ['%', HexDigit(bs[0] / 16), HexDigit(bs[0] % 16)] + PercentBytes(bs[1..])
  }

  /** `requests.utils.quote(s)`, that is `urllib.parse.quote(s, safe="/")` over UTF-8. */
  function Quote(s: string): (r: string)
    ensures |r| >= |s|
    ensures forall k :: 0 <= k < |r| ==> IsQuoteSafe(r[k]) || r[k] == '%' || IsHexUpper(r[k])
  {
    if s == [] then []
    else (if IsQuoteSafe(s[0]) then [s[0]] else PercentBytes(Utf8(s[0]))) + Quote(s[1..])
  }

  /** A text made of safe characters only is left unchanged. */
  lemma {:induction false} QuoteSafeText(s: string)
    requires forall k :: 0 <= k < |s| ==> IsQuoteSafe(s[k])
    ensures Quote(s) == s
  {
    if s != [] {
      QuoteSafeText(s[1..]);
      assert [s[0]] + s[1..] == s;
    }
  }

  /** A space becomes `%20`, so the quoted term never holds one. */
  lemma QuoteSpace()
    ensures Quote(" ") == "%20"
  {
    assert Utf8(' ') == [32];
    assert PercentBytes([32]) == "%20";
  }
}
