/**
 Shared vocabulary of the HTTP command channel: an Option type, HTTP headers,
 the two JSON payload shapes, C# decimal formatting of an `int`, the base URL
 that both the listener prefix and the client's `_formattedUrl` are built from,
 and the listener's view of a URL as a local path.
 */
module Common {

  datatype Option<+T> = None | Some(value: T)

  datatype Header = Header(name: string, value: string)

  /** Body of `POST /toggleObject`: `{ "index": <integer> }`. */
  datatype ToggleCommand = ToggleCommand(index: int)

  /** Body answered by `POST /toggleObject`: `{ "index": <integer>, "active": <boolean> }`. */
  datatype ToggleStatus = ToggleStatus(index: int, active: bool)

  const JsonContentType: string := "application/json"

  predicate IsDigit(c: char) {
    '0' <= c <= '9'
  }

  predicate AllDigits(s: string) {
    forall i :: 0 <= i < |s| ==> IsDigit(s[i])
  }

  function DigitChar(d: nat): (c: char)
    requires d < 10
    ensures IsDigit(c) && c as int - '0' as int == d
  {
    "0123456789"[d]
  }

  /** The decimal digits of `n`, most significant first, without leading zeros. */
  function NatDigits(n: nat): (s: string)
    ensures |s| > 0 && AllDigits(s)
    ensures |s| > 1 ==> s[0] != '0'
    decreases n
  {
    if n < 10 then [DigitChar(n)] else NatDigits(n / 10) + [DigitChar(n % 10)]
  }

  /** `n.ToString()` as C# string interpolation writes an `int`: a minus sign, then the digits. */
  function DecimalString(n: int): (s: string)
    ensures |s| > 0
    ensures s[0] == '-' <==> n < 0
    ensures forall i :: 0 <= i < |s| ==> IsDigit(s[i]) || (i == 0 && s[i] == '-')
    // no leading zero: the first digit is '0' only when it is the only digit
    ensures var first := if n < 0 then 1 else 0; |s| > first + 1 ==> s[first] != '0'
  {
    if n < 0 then "-" + NatDigits(-n) else NatDigits(n)
  }

  /** The value of a string of decimal digits. */
  function DigitsValue(s: string): nat
    requires AllDigits(s)
  {
    if |s| == 0 then 0
    else DigitsValue(s[..|s| - 1]) * 10 + (s[|s| - 1] as int - '0' as int)
  }

  /** Reads an optionally negative decimal integer; the inverse of `DecimalString`. */
  function ParseDecimal(s: string): Option<int> {
    if |s| > 1 && s[0] == '-' && AllDigits(s[1..]) then Some(-(DigitsValue(s[1..]) as int))
    else if |s| > 0 && AllDigits(s) then Some(DigitsValue(s))
    else None
  }

  lemma {:induction false} NatDigitsValue(n: nat)
    ensures DigitsValue(NatDigits(n)) == n
    decreases n
  {
    if n >= 10 {
      var s := NatDigits(n);
      assert s[..|s| - 1] == NatDigits(n / 10);
      NatDigitsValue(n / 10);
    }
  }

  /** Formatting a port and reading it back gives the same number. */
  lemma DecimalRoundTrip(n: int)
    ensures ParseDecimal(DecimalString(n)) == Some(n)
  {
    if n < 0 {
      var digits := NatDigits(-n);
      var s := "-" + digits;
      assert s[1..] == digits;
      NatDigitsValue(-n);
      assert ParseDecimal(s) == Some(-(DigitsValue(digits) as int));
    } else {
      var digits := NatDigits(n);
      assert IsDigit(digits[0]);
      NatDigitsValue(n);
      assert ParseDecimal(digits) == Some(DigitsValue(digits) as int);
    }
  }

  /** `$"http://{url}:{port}"`, the client's `_formattedUrl`; the listener prefix adds a trailing "/". */
  function BaseUrl(host: string, port: int): (u: string)
    ensures |u| > 7 + |host| && u[..7] == "http://" && u[7..7 + |host|] == host && u[7 + |host|] == ':'
    ensures u[8 + |host|..] == DecimalString(port)
    ensures ParseDecimal(u[8 + |host|..]) == Some(port)
  {
    var u := "http://" + host + ":" + DecimalString(port);
    assert u[8 + |host|..] == DecimalString(port);
    DecimalRoundTrip(port);
    u
  }

  /** The part of `s` from its first '/' on, or "/" when `s` holds no '/'. */
  function FromFirstSlash(s: string): (p: string)
    ensures |p| > 0 && p[0] == '/'
  {
    if |s| == 0 then "/" else if s[0] == '/' then s else FromFirstSlash(s[1..])
  }

  /**
   The local path a listener reports for an absolute "http://" URI: everything
   from the first '/' after the authority (no query strings and no
   percent-decoding occur in this channel).
   */
  function LocalPath(uri: string): (p: string)
    ensures |p| > 0 && p[0] == '/'
  {
    if |uri| >= 7 && uri[..7] == "http://" then FromFirstSlash(uri[7..]) else FromFirstSlash(uri)
  }

  lemma {:induction false} FromFirstSlashSkips(a: string, b: string)
    requires '/' !in a
    requires |b| > 0 && b[0] == '/'
    ensures FromFirstSlash(a + b) == b
    decreases |a|
  {
    if |a| == 0 {
      assert a + b == b;
    } else {
      assert (a + b)[1..] == a[1..] + b;
      FromFirstSlashSkips(a[1..], b);
    }
  }

  /** The authority part of a base URL holds a '/' only if the host does. */
  lemma AuthorityHasNoSlash(host: string, port: int)
    requires '/' !in host
    ensures '/' !in host + ":" + DecimalString(port)
  {
  }

  /** A route appended to the base URL of a host without '/' is exactly what the listener reports as local path. */
  lemma LocalPathOfBaseUrl(host: string, port: int, route: string)
    requires '/' !in host
    requires |route| > 0 && route[0] == '/'
    ensures LocalPath(BaseUrl(host, port) + route) == route
  {
    var authority := host + ":" + DecimalString(port);
    var base := BaseUrl(host, port);
    assert base == "http://" + authority;
    var uri := base + route;
    assert uri == "http://" + (authority + route);
    assert uri[..7] == "http://" && uri[7..] == authority + route;
    AuthorityHasNoSlash(host, port);
    FromFirstSlashSkips(authority, route);
  }
}
