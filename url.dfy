/**
  The URL `jort` resolves to: `url.format` applied to protocol `http`, the
  listening address's host and port, and path `/`. Node's legacy formatter
  brackets a host that contains `:` (an IPv6 address), leaves the port out
  when it is 0, and writes no `//` authority when the host is empty.
  `ParseUrl` recovers the address, which makes the formatter injective.
 */
module Url {
  import opened JsValues

  /** The address `server.address()` reports. */
  datatype Address = Address(host: string, port: nat)

  predicate IsDigit(c: char) {
    '0' <= c <= '9'
  }

  predicate AllDigits(s: string) {
    forall i :: 0 <= i < |s| ==> IsDigit(s[i])
  }

  function DigitChar(d: nat): (c: char)
    requires d < 10
    ensures IsDigit(c)
  {
    ('0' as int + d) as char
  }

  function DigitValue(c: char): (d: nat)
    requires IsDigit(c)
    ensures d < 10
  {
    c as int - '0' as int
  }

  /** The decimal text JavaScript prints for a non-negative integer. */
  function NatToDecimal(n: nat): (s: string)
    ensures |s| >= 1 && AllDigits(s)
    ensures n > 0 ==> s[0] != '0'
    ensures |s| > 1 ==> s[0] != '0'
  {
    if n < 10 then [DigitChar(n)] else NatToDecimal(n / 10) + [DigitChar(n % 10)]
  }

  function DecimalToNat(s: string): nat
    requires AllDigits(s)
  {
    if s == [] then 0 else 10 * DecimalToNat(s[..|s| - 1]) + DigitValue(s[|s| - 1])
  }

  /** Reading the decimal text of a number gives the number back. */
  lemma {:induction false} DecimalRoundTrip(n: nat)
    ensures DecimalToNat(NatToDecimal(n)) == n
  {
    var s := NatToDecimal(n);
    if n < 10 {
      assert s[..|s| - 1] == [];
    } else {
      DecimalRoundTrip(n / 10);
      assert s[..|s| - 1] == NatToDecimal(n / 10);
    }
  }

  /** The host as it appears in a URL: bracketed when it contains a colon. */
  function HostPart(host: string): (h: string)
    ensures ':' in host ==> h == "[" + host + "]"
    ensures ':' !in host ==> h == host
  {
    if ':' in host then "[" + host + "]" else host
  }

  /** `url.format({protocol: 'http', hostname, port, pathname: '/'})`. */
  function FormatUrl(a: Address): (url: string)
    ensures a.host == "" ==> url == "http:/"
    ensures a.host != "" ==> |url| >= 8 && url[..7] == "http://" && url[|url| - 1] == '/'
  {
    if a.host == "" then "http:/"
    else "http://" + HostPart(a.host) + (if a.port != 0 then ":" + NatToDecimal(a.port) else "") + "/"
  }

  /** The index of the last colon in `s`, if any. */
  function LastColon(s: string): (r: Option<nat>)
    ensures r.Some? ==> r.value < |s| && s[r.value] == ':' && ':' !in s[r.value + 1..]
    ensures r.None? ==> ':' !in s
  {
    if s == [] then None
    else if s[|s| - 1] == ':' then Some(|s| - 1)
    else LastColon(s[..|s| - 1])
  }

  /** Splits `host:port` at the last colon when digits follow it; otherwise the port is 0. */
  function SplitPort(authority: string): (string, nat) {
    match LastColon(authority)
    case None => (authority, 0)
    case Some(j) =>
      if j + 1 < |authority| && AllDigits(authority[j + 1..])
      then (authority[..j], DecimalToNat(authority[j + 1..]))
      else (authority, 0)
  }

  function Unbracket(h: string): string {
    if |h| >= 2 && h[0] == '[' && h[|h| - 1] == ']' then h[1..|h| - 1] else h
  }

  /** The address a URL of the shape `http://host[:port]/` names. */
  function ParseUrl(url: string): Option<Address> {
    if |url| < 8 || url[..7] != "http://" || url[|url| - 1] != '/' then None
    else
      var (h, port) := SplitPort(url[7..|url| - 1]);
      Some(Address(Unbracket(h), port))
  }

  lemma LastColonOfSuffix(s: string, t: string)
    requires ':' !in t
    ensures LastColon(s + ":" + t) == Some(|s|)
  {
    var u := s + ":" + t;
    assert u[|s|] == ':';
    assert u[|s| + 1..] == t;
  }

  /** Digits after the last colon are read back as the port. */
  lemma SplitWithPort(h: string, port: nat)
    ensures SplitPort(h + ":" + NatToDecimal(port)) == (h, port)
  {
    var digits := NatToDecimal(port);
    var u := h + ":" + digits;
    assert ':' !in digits;
    LastColonOfSuffix(h, digits);
    assert u[..|h|] == h;
    assert u[|h| + 1..] == digits;
    DecimalRoundTrip(port);
  }

  /** Without a port the authority is left whole. */
  lemma SplitWithoutPort(host: string)
    ensures SplitPort(HostPart(host)) == (HostPart(host), 0)
  {
  }

  lemma UnbracketHostPart(host: string)
    requires host != "" && host[0] != '['
    ensures Unbracket(HostPart(host)) == host
  {
  }

  /** A URL of the shape `http://authority/` is parsed from its authority. */
  lemma ParseAuthority(authority: string)
    ensures ParseUrl("http://" + authority + "/")
         == Some(Address(Unbracket(SplitPort(authority).0), SplitPort(authority).1))
  {
  }

  /** ParseUrl undoes FormatUrl for a non-empty host that is not itself bracketed. */
  lemma FormatUrlRoundTrip(a: Address)
    requires a.host != "" && a.host[0] != '['
    ensures ParseUrl(FormatUrl(a)) == Some(a)
  {
    var h := HostPart(a.host);
    var tail := if a.port != 0 then ":" + NatToDecimal(a.port) else "";
    assert FormatUrl(a) == "http://" + (h + tail) + "/";
    ParseAuthority(h + tail);
    if a.port != 0 {
      assert h + tail == h + ":" + NatToDecimal(a.port);
      SplitWithPort(h, a.port);
    } else {
      assert h + tail == h;
      SplitWithoutPort(a.host);
    }
    UnbracketHostPart(a.host);
  }

  /** Two addresses of that kind give two different URLs. */
  lemma FormatUrlInjective(a: Address, b: Address)
    requires a.host != "" && a.host[0] != '['
    requires b.host != "" && b.host[0] != '['
    requires FormatUrl(a) == FormatUrl(b)
    ensures a == b
  {
    FormatUrlRoundTrip(a);
    FormatUrlRoundTrip(b);
  }
}
