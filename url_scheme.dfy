/** The scheme part of Python's `urllib.parse.urlparse`, which is all that
    `is_s3_uri` looks at: the text before the first colon counts as a scheme
    when it is non-empty, starts with an ASCII letter and holds only letters,
    digits, `+`, `-` and `.` (section 3.1 of RFC 3986); it is then reported
    lower-cased. Otherwise the scheme is the empty string. */
module UrlScheme {
  import opened Text

  predicate IsAsciiLetter(c: char) {
    'a' <= c <= 'z' || 'A' <= c <= 'Z'
  }

  predicate IsSchemeChar(c: char) {
    IsAsciiLetter(c) || '0' <= c <= '9' || c == '+' || c == '-' || c == '.'
  }

  predicate IsSchemeText(s: string) {
    |s| > 0 && IsAsciiLetter(s[0]) && forall k :: 0 <= k < |s| ==> IsSchemeChar(s[k])
  }

  /** The index of the first colon of `s` (Python's `s.find(':')`), if any. */
  function FirstColon(s: string): (r: Option<nat>)
    ensures r.Some? ==> r.value < |s| && s[r.value] == ':'
    ensures r.Some? ==> forall k :: 0 <= k < r.value ==> s[k] != ':'
    ensures r.None? <==> ':' !in s
  {
    if |s| == 0 then None
    else if s[0] == ':' then Some(0)
    else
      match FirstColon(s[1..])
      case None => None
      case Some(i) => Some(i + 1)
  }

  /** The scheme `urlparse(url).scheme` reports. */
  function Scheme(url: string): string
  {
    match FirstColon(url)
    case None => ""
    case Some(i) => if IsSchemeText(url[..i]) then AsciiLower(url[..i]) else ""
  }

  /** A non-empty scheme is the lower-cased text before the first colon. */
  lemma SchemeIsPrefix(url: string)
    requires Scheme(url) != ""
    ensures var n := |Scheme(url)|;
      n < |url| && url[n] == ':' && ':' !in url[..n] && IsSchemeText(url[..n])
      && Scheme(url) == AsciiLower(url[..n])
  {
  }

  /** Scheme text followed by a colon is reported as the scheme, whatever follows. */
  lemma SchemeOfPrefix(s: string, rest: string)
    requires IsSchemeText(s)
    ensures Scheme(s + ":" + rest) == AsciiLower(s)
  {
    var url := s + ":" + rest;
    assert ':' !in s by {
      forall k | 0 <= k < |s| ensures s[k] != ':' {
        assert IsSchemeChar(s[k]);
      }
    }
    assert url[|s|] == ':';
    assert forall k :: 0 <= k < |s| ==> url[k] == s[k];
    assert url[..|s|] == s;
  }

  /** A string without a colon has no scheme. */
  lemma NoColonNoScheme(url: string)
    requires ':' !in url
    ensures Scheme(url) == ""
  {
  }
}
