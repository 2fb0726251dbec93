/** ICE server URLs narrowed to one address family (`zakuro/src/ice_server.rs`). */
module IceServer {
  import opened Outcomes

  datatype Family = Ipv4 | Ipv6

  /** An address and the text it is printed as. */
  datatype Address = Address(family: Family, text: string)

  predicate IsAddress(a: Address) {
    && a.text != []
    && forall c :: c in a.text ==> ('0' <= c <= '9') || c == '.' || (a.family.Ipv6? && (('a' <= c <= 'f') || c == ':'))
  }

  datatype Url = Url(scheme: string, prefix: string, host: string, port: Option<string>, params: string)

  /** The position of the first of two characters, or the end. */
  function Find(s: string, a: char, b: char): (i: nat)
    ensures i <= |s|
    ensures a !in s[..i] && b !in s[..i]
    ensures i < |s| ==> s[i] == a || s[i] == b
  {
    if s == [] || s[0] == a || s[0] == b then 0
    else
      var i := Find(s[1..], a, b) + 1;
      assert s[..i] == [s[0]] + s[1..][..i - 1];
      i
  }

  predicate IsScheme(s: string) {
    s == "turn" || s == "turns" || s == "stun" || s == "stuns"
  }

  predicate Secure(scheme: string) {
    scheme == "turns" || scheme == "stuns"
  }

  predicate AllDigits(s: string) {
    forall i :: 0 <= i < |s| ==> '0' <= s[i] <= '9'
  }

  function DigitsValue(s: string): nat
    requires AllDigits(s)
  {
    if s == [] then 0 else DigitsValue(s[..|s| - 1]) * 10 + (s[|s| - 1] as int - '0' as int)
  }

  /** A 16-bit number in decimal, perhaps after a plus sign. */
  function PortNumber(p: string): Option<nat> {
    var digits := if p != [] && p[0] == '+' then p[1..] else p;
    if digits == [] || !AllDigits(digits) || DigitsValue(digits) > 65535 then None
    else Some(DigitsValue(digits))
  }

  function Digit(n: nat): char
    requires n < 10
  {
    '0' + n as char
  }

  /** The number in decimal, without leading zeros. */
  function Decimal(n: nat): string {
    (if n < 10 then "" else Decimal(n / 10)) + [Digit(n % 10)]
  }

  function Zeros(k: nat): string {
    if k == 0 then "" else Zeros(k - 1) + "0"
  }

  lemma DigitsSnoc(s: string, n: nat)
    requires AllDigits(s) && n < 10
    ensures AllDigits(s + [Digit(n)]) && DigitsValue(s + [Digit(n)]) == DigitsValue(s) * 10 + n
  {
    assert (s + [Digit(n)])[..|s|] == s;
  }

  lemma {:induction false} ZerosAre(k: nat)
    ensures AllDigits(Zeros(k)) && DigitsValue(Zeros(k)) == 0
  {
    if k > 0 {
      ZerosAre(k - 1);
      DigitsSnoc(Zeros(k - 1), 0);
    }
  }

  lemma DecimalIs(k: nat, n: nat)
    ensures n < 10 ==> Zeros(k) + Decimal(n) == Zeros(k) + [Digit(n)]
    ensures n >= 10 ==> Zeros(k) + Decimal(n) == (Zeros(k) + Decimal(n / 10)) + [Digit(n % 10)]
    ensures Decimal(n) != ""
  {
    hide Zeros, Digit;
    assert "" + [Digit(n % 10)] == [Digit(n % 10)];
  }

  lemma {:induction false} DecimalValue(k: nat, n: nat)
    ensures AllDigits(Zeros(k) + Decimal(n)) && DigitsValue(Zeros(k) + Decimal(n)) == n
  {
    hide *;
    DecimalIs(k, n);
    if n < 10 {
      ZerosAre(k);
      DigitsSnoc(Zeros(k), n);
    } else {
      DecimalValue(k, n / 10);
      DigitsSnoc(Zeros(k) + Decimal(n / 10), n % 10);
    }
  }

  lemma DigitsSplit(s: string)
    requires AllDigits(s) && s != ""
    ensures var init, d := s[..|s| - 1], s[|s| - 1] as int - '0' as int;
            && 0 <= d < 10 && s == init + [Digit(d)] && AllDigits(init) && DigitsValue(s) == DigitsValue(init) * 10 + d
  {
    var init, d := s[..|s| - 1], s[|s| - 1] as int - '0' as int;
    assert s == init + [Digit(d)];
  }

  lemma {:induction false} DigitsAreDecimal(s: string) returns (k: nat)
    requires AllDigits(s) && s != ""
    ensures s == Zeros(k) + Decimal(DigitsValue(s))
  {
    hide *;
    DigitsSplit(s);
    var init, d := s[..|s| - 1], s[|s| - 1] as int - '0' as int;
    var n := DigitsValue(init);
    if init == "" {
      k := 0;
      OneDigit(d);
    } else {
      k := DigitsAreDecimal(init);
      if n == 0 {
        ZeroMore(k);
        k := k + 1;
        DecimalIs(k, d);
      } else {
        assert (n * 10 + d) / 10 == n && (n * 10 + d) % 10 == d;
        DecimalIs(k, n * 10 + d);
      }
    }
  }

  lemma OneDigit(d: nat)
    requires d < 10
    ensures "" + [Digit(d)] == Zeros(0) + Decimal(d) && DigitsValue("") == 0
  {
  }

  lemma ZeroMore(k: nat)
    ensures Zeros(k) + Decimal(0) == Zeros(k + 1)
  {
    assert Decimal(0) == "0";
  }

  /** The number as it may be written: after a plus sign, and with zeros in front. */
  function NumberText(plus: bool, zeros: nat, n: nat): string {
    (if plus then "+" else "") + (Zeros(zeros) + Decimal(n))
  }

  lemma NumberDigits(plus: bool, zeros: nat, n: nat)
    ensures var p, number := NumberText(plus, zeros, n), Zeros(zeros) + Decimal(n);
            && p != "" && (p[0] == '+' <==> plus) && (if plus then p[1..] else p) == number
            && number != "" && AllDigits(number) && DigitsValue(number) == n
  {
    DecimalValue(zeros, n);
    DecimalIs(zeros, n);
    hide Zeros, Decimal, DigitsValue;
  }

  /** A port is read exactly if it is a 16-bit number in decimal, perhaps after a plus sign and zeros. */
  lemma PortNumberMeans(p: string, n: nat)
    ensures PortNumber(p) == Some(n) <==> n <= 65535 && exists plus, zeros :: NumberText(plus, zeros, n) == p
  {
    hide DigitsValue, AllDigits, NumberText;
    if PortNumber(p) == Some(n) {
      var plus := p[0] == '+';
      var digits := if plus then p[1..] else p;
      var zeros := DigitsAreDecimal(digits);
      NumberDigits(plus, zeros, n);
      assert NumberText(plus, zeros, n) == p;
    }
    if n <= 65535 && exists plus, zeros :: NumberText(plus, zeros, n) == p {
      var plus, zeros :| NumberText(plus, zeros, n) == p;
      NumberDigits(plus, zeros, n);
    }
  }

  function StartsWith(s: string, c: char): bool {
    s != [] && s[0] == c
  }

  /** Port and parameters, after the host. */
  function ParseEnd(scheme: string, prefix: string, host: string, rest: string): Option<Url> {
    if host == [] || '/' in host then None
    else
      var end := if StartsWith(rest, ':') then 1 + Find(rest[1..], '?', '?') else 0;
      var port := if StartsWith(rest, ':') then Some(rest[1..end]) else None;
      if port.Some? && PortNumber(port.value).None? then None
      else if rest[end..] != [] && !StartsWith(rest[end..], '?') then None
      else Some(Url(scheme, prefix, host, port, rest[end..]))
  }

  /** Host, port and parameters; the host may stand in brackets. */
  function ParseHost(scheme: string, prefix: string, rest: string): Option<Url> {
    if StartsWith(rest, '[') then
      var end := Find(rest[1..], ']', ']') + 1;
      if end == |rest| then None else ParseEnd(scheme, prefix, rest[1..end], rest[end + 1..])
    else
      var end := Find(rest, ':', '?');
      ParseEnd(scheme, prefix, rest[..end], rest[end..])
  }

  function ParsePrefix(scheme: string, rest: string): Option<Url> {
    if |rest| >= 2 && rest[..2] == "//" then ParseHost(scheme, "//", rest[2..]) else ParseHost(scheme, "", rest)
  }

  function Parse(url: string): Option<Url> {
    var colon := Find(url, ':', ':');
    if colon == |url| || !IsScheme(url[..colon]) then None else ParsePrefix(url[..colon], url[colon + 1..])
  }

  function EndText(u: Url): string {
    (if u.port.Some? then ":" + u.port.value else "") + u.params
  }

  function HostText(u: Url, bracketed: bool): string {
    if bracketed then "[" + u.host + "]" else u.host
  }

  /** The URL written out, its host in brackets or not. */
  function Write(u: Url, bracketed: bool): string {
    u.scheme + (":" + (u.prefix + (HostText(u, bracketed) + EndText(u))))
  }

  /** The URLs that can be written that way. */
  predicate Writable(u: Url, bracketed: bool) {
    && (u.scheme == "turn" || u.scheme == "turns" || u.scheme == "stun" || u.scheme == "stuns")
    && (u.prefix == "" || u.prefix == "//")
    && u.host != [] && '/' !in u.host
    && (if bracketed then ']' !in u.host else ':' !in u.host && '?' !in u.host && u.host[0] != '[')
    && (u.port.Some? ==> PortNumber(u.port.value).Some?)
    && (u.params == [] || u.params[0] == '?')
  }

  // ----- parsing and writing undo each other -----

  lemma {:induction false} FindIs(s: string, a: char, b: char, i: nat)
    requires i <= |s| && a !in s[..i] && b !in s[..i] && (i < |s| ==> s[i] == a || s[i] == b)
    ensures Find(s, a, b) == i
  {
    if i > 0 {
      assert s[..i] == [s[0]] + s[1..][..i - 1];
      FindIs(s[1..], a, b, i - 1);
    }
  }

  /** The first such character is found behind anything without one. */
  lemma FindAfter(s: string, t: string, a: char, b: char)
    requires a !in s && b !in s && (t == [] || t[0] == a || t[0] == b)
    ensures Find(s + t, a, b) == |s| && (s + t)[..|s|] == s && (s + t)[|s|..] == t
  {
    assert (s + t)[..|s|] == s && (s + t)[|s|..] == t;
    FindIs(s + t, a, b, |s|);
  }

  lemma PortHasNoMark(p: string)
    requires PortNumber(p).Some?
    ensures '?' !in p
  {
    var digits := if p != [] && p[0] == '+' then p[1..] else p;
    assert forall k :: 0 <= k < |p| ==> (k == 0 && p[0] == '+') || p[k] == digits[k - (|p| - |digits|)];
  }

  lemma PortEnds(p: string, params: string)
    requires '?' !in p && (params == [] || params[0] == '?')
    ensures var rest := ":" + p + params;
            && StartsWith(rest, ':') && 1 + Find(rest[1..], '?', '?') == 1 + |p|
            && rest[1..1 + |p|] == p && rest[1 + |p|..] == params
  {
    hide Find;
    var rest := ":" + p + params;
    FindAfter(p, params, '?', '?');
    assert rest[1..] == p + params;
  }

  lemma ParseEndPort(scheme: string, prefix: string, host: string, p: string, params: string)
    requires host != [] && '/' !in host && PortNumber(p).Some? && '?' !in p && (params == [] || params[0] == '?')
    ensures ParseEnd(scheme, prefix, host, ":" + p + params) == Some(Url(scheme, prefix, host, Some(p), params))
  {
    PortEnds(p, params);
    hide PortNumber, Find;
  }

  lemma ParseEndPlain(scheme: string, prefix: string, host: string, params: string)
    requires host != [] && '/' !in host && (params == [] || params[0] == '?')
    ensures ParseEnd(scheme, prefix, host, params) == Some(Url(scheme, prefix, host, None, params))
  {
    hide PortNumber, Find;
    assert params[0..] == params;
  }

  lemma EndWritten(u: Url)
    requires u.host != [] && '/' !in u.host && (u.port.Some? ==> PortNumber(u.port.value).Some?)
    requires u.params == [] || u.params[0] == '?'
    ensures ParseEnd(u.scheme, u.prefix, u.host, EndText(u)) == Some(u)
  {
    hide PortNumber, ParseEnd;
    if u.port.Some? {
      PortHasNoMark(u.port.value);
      ParseEndPort(u.scheme, u.prefix, u.host, u.port.value, u.params);
    } else {
      ParseEndPlain(u.scheme, u.prefix, u.host, u.params);
      assert "" + u.params == u.params;
    }
  }

  lemma ParseBracketed(scheme: string, prefix: string, host: string, end: string)
    requires ']' !in host
    ensures ParseHost(scheme, prefix, "[" + host + "]" + end) == ParseEnd(scheme, prefix, host, end)
  {
    hide ParseEnd;
    var rest := "[" + host + "]" + end;
    FindAfter(host, "]" + end, ']', ']');
    assert rest[1..] == host + ("]" + end);
    assert rest[1..|host| + 1] == host && rest[|host| + 2..] == end;
  }

  lemma ParsePlain(scheme: string, prefix: string, host: string, end: string)
    requires host != [] && host[0] != '[' && ':' !in host && '?' !in host
    requires end == [] || end[0] == ':' || end[0] == '?'
    ensures ParseHost(scheme, prefix, host + end) == ParseEnd(scheme, prefix, host, end)
  {
    hide ParseEnd;
    FindAfter(host, end, ':', '?');
    assert (host + end)[0] == host[0];
  }

  lemma HostWritten(u: Url, bracketed: bool)
    requires Writable(u, bracketed)
    ensures ParseHost(u.scheme, u.prefix, HostText(u, bracketed) + EndText(u)) == Some(u)
  {
    EndWritten(u);
    assert EndText(u) == [] || EndText(u)[0] == ':' || EndText(u)[0] == '?';
    if bracketed {
      ParseBracketed(u.scheme, u.prefix, u.host, EndText(u));
    } else {
      ParsePlain(u.scheme, u.prefix, u.host, EndText(u));
    }
    hide ParseEnd, PortNumber, EndText, ParseHost, IsScheme;
  }

  lemma SchemePlain(scheme: string)
    requires IsScheme(scheme)
    ensures ':' !in scheme
  {
  }

  lemma ParseColon(scheme: string, rest: string)
    requires IsScheme(scheme)
    ensures Parse(scheme + (":" + rest)) == ParsePrefix(scheme, rest)
  {
    SchemePlain(scheme);
    hide ParsePrefix, IsScheme;
    FindAfter(scheme, ":" + rest, ':', ':');
    assert (scheme + (":" + rest))[|scheme| + 1..] == rest;
  }

  lemma ParseSlashes(scheme: string, prefix: string, tail: string)
    requires tail != [] && tail[0] != '/' && (prefix == "" || prefix == "//")
    ensures ParsePrefix(scheme, prefix + tail) == ParseHost(scheme, prefix, tail)
  {
    hide ParseHost;
    var rest := prefix + tail;
    if prefix == "//" {
      assert rest[..2] == "//" && rest[2..] == tail;
    } else {
      assert rest == tail;
    }
  }

  /** What is written parses to the same URL. */
  lemma WrittenParses(u: Url, bracketed: bool)
    requires Writable(u, bracketed)
    ensures Parse(Write(u, bracketed)) == Some(u)
  {
    HostWritten(u, bracketed);
    assert u.host[0] in u.host;
    assert HostText(u, bracketed)[0] != '/';
    hide ParseHost, HostText, EndText, PortNumber, IsScheme, Parse;
    var tail := HostText(u, bracketed) + EndText(u);
    ParseColon(u.scheme, u.prefix + tail);
    ParseSlashes(u.scheme, u.prefix, tail);
  }

  lemma EndParsed(scheme: string, prefix: string, host: string, rest: string)
    requires ParseEnd(scheme, prefix, host, rest).Some?
    ensures var u := ParseEnd(scheme, prefix, host, rest).value;
            && u.scheme == scheme && u.prefix == prefix && u.host == host && host != [] && '/' !in host
            && (u.port.Some? ==> PortNumber(u.port.value).Some?)
            && (u.params == [] || u.params[0] == '?')
            && rest == EndText(u)
  {
    hide PortNumber;
  }

  lemma HostParsed(scheme: string, prefix: string, rest: string)
    requires ParseHost(scheme, prefix, rest).Some? && IsScheme(scheme) && (prefix == "" || prefix == "//")
    ensures var u, bracketed := ParseHost(scheme, prefix, rest).value, StartsWith(rest, '[');
            && u.scheme == scheme && u.prefix == prefix && Writable(u, bracketed)
            && rest == HostText(u, bracketed) + EndText(u)
  {
    hide ParseEnd, EndText, PortNumber;
    if StartsWith(rest, '[') {
      var end := Find(rest[1..], ']', ']') + 1;
      EndParsed(scheme, prefix, rest[1..end], rest[end + 1..]);
      assert rest[1..][..end - 1] == rest[1..end];
      assert rest == "[" + rest[1..end] + "]" + rest[end + 1..];
    } else {
      var end := Find(rest, ':', '?');
      EndParsed(scheme, prefix, rest[..end], rest[end..]);
      assert rest == rest[..end] + rest[end..];
    }
  }

  /** What parses was written that way. */
  lemma ParsedWasWritten(url: string) returns (bracketed: bool)
    requires Parse(url).Some?
    ensures Writable(Parse(url).value, bracketed) && Write(Parse(url).value, bracketed) == url
  {
    var scheme, prefix, tail := SchemeParsed(url);
    hide Parse;
    HostParsed(scheme, prefix, tail);
    bracketed := StartsWith(tail, '[');
    hide ParseHost, HostText, EndText, Writable, IsScheme;
  }

  lemma SchemeParsed(url: string) returns (scheme: string, prefix: string, tail: string)
    requires Parse(url).Some?
    ensures IsScheme(scheme) && (prefix == "" || prefix == "//") && url == scheme + (":" + (prefix + tail))
    ensures Parse(url) == ParseHost(scheme, prefix, tail)
  {
    hide ParseHost, IsScheme;
    var colon := Find(url, ':', ':');
    hide Find;
    var rest := url[colon + 1..];
    scheme, prefix, tail := url[..colon], "", rest;
    assert url == scheme + (":" + rest);
    if |rest| >= 2 && rest[..2] == "//" {
      prefix, tail := "//", rest[2..];
    }
    assert prefix + tail == rest;
  }

  /** A URL parses exactly if it is some URL written out, and then it is that one. */
  lemma ParseMeans(url: string, u: Url)
    ensures Parse(url) == Some(u) <==> exists bracketed :: Writable(u, bracketed) && Write(u, bracketed) == url
  {
    hide Parse, Writable, Write;
    if Parse(url) == Some(u) {
      var bracketed := ParsedWasWritten(url);
    }
    if exists bracketed :: Writable(u, bracketed) && Write(u, bracketed) == url {
      var bracketed :| Writable(u, bracketed) && Write(u, bracketed) == url;
      WrittenParses(u, bracketed);
    }
  }

  // ----- narrowing to one family -----

  function FirstOf(family: Family, resolved: seq<Address>): Option<Address> {
    if resolved == [] then None
    else if resolved[0].family == family then Some(resolved[0])
    else FirstOf(family, resolved[1..])
  }

  /** IPv6 literals stand in brackets. */
  function WithHost(u: Url, a: Address): string {
    Write(u.(host := a.text), a.family.Ipv6?)
  }

  function SelectUrl(url: string, family: Family, resolved: seq<Address>): Option<string> {
    var u :- Parse(url);
    if Secure(u.scheme) then None
    else
      var a :- FirstOf(family, resolved);
      Some(WithHost(u, a))
  }

  function DefaultPort(u: Url): nat {
    if u.port.Some? && PortNumber(u.port.value).Some? then PortNumber(u.port.value).value
    else if Secure(u.scheme) then 5349
    else 3478
  }

  /** `literal` reads an address from its text, `lookup` asks the name service. */
  datatype Resolver = Resolver(literal: string -> Option<Address>, lookup: (string, nat) -> seq<Address>)

  function Resolve(r: Resolver, host: string, port: nat): seq<Address> {
    if r.literal(host).Some? then [r.literal(host).value] else r.lookup(host, port)
  }

  function SelectResolved(r: Resolver, url: string, family: Family): Option<string> {
    var u :- Parse(url);
    SelectUrl(url, family, Resolve(r, u.host, DefaultPort(u)))
  }

  /** An address whose text is read as that address. */
  ghost predicate Readable(r: Resolver, a: Address) {
    IsAddress(a) && r.literal(a.text) == Some(a)
  }

  /** Only such addresses come out. */
  ghost predicate Honest(r: Resolver) {
    && (forall host :: r.literal(host).Some? ==> Readable(r, r.literal(host).value))
    && (forall host, port :: forall a :: a in r.lookup(host, port) ==> Readable(r, a))
  }

  predicate IsFirst(family: Family, resolved: seq<Address>, k: int) {
    0 <= k < |resolved| && resolved[k].family == family && forall j :: 0 <= j < k ==> resolved[j].family != family
  }

  /** The URL with another host, and the text that is parsed as it. */
  predicate IsWithHost(u: Url, a: Address, text: string) {
    Parse(text) == Some(u.(host := a.text)) && text == Write(u.(host := a.text), a.family.Ipv6?)
  }

  lemma FirstLater(family: Family, resolved: seq<Address>, k: int)
    requires resolved != [] && resolved[0].family != family && IsFirst(family, resolved[1..], k)
    ensures IsFirst(family, resolved, k + 1) && resolved[k + 1] == resolved[1..][k]
  {
    assert forall j :: 0 < j < k + 1 ==> resolved[j] == resolved[1..][j - 1];
  }

  lemma {:induction false} FirstIs(family: Family, resolved: seq<Address>)
    ensures var a := FirstOf(family, resolved);
            && (a.Some? ==> exists k :: IsFirst(family, resolved, k) && resolved[k] == a.value)
            && (a.None? <==> forall a :: a in resolved ==> a.family != family)
  {
    if resolved != [] {
      FirstIs(family, resolved[1..]);
      if resolved[0].family == family {
        assert IsFirst(family, resolved, 0);
      } else if FirstOf(family, resolved[1..]).Some? {
        hide IsFirst;
        var k :| IsFirst(family, resolved[1..], k) && resolved[1..][k] == FirstOf(family, resolved[1..]).value;
        FirstLater(family, resolved, k);
      }
    }
  }

  lemma AddressIsHost(u: Url, bracketed: bool, a: Address)
    requires Writable(u, bracketed) && IsAddress(a)
    ensures Writable(u.(host := a.text), a.family.Ipv6?)
  {
    hide PortNumber;
    assert a.text[0] in a.text;
  }

  /** Nothing is selected exactly if the URL does not parse, is for TLS, or has no address of the family. What is
      selected is the same URL with the first such address for its host, in brackets for IPv6. */
  lemma SelectMeans(url: string, family: Family, resolved: seq<Address>)
    requires forall a :: a in resolved ==> IsAddress(a)
    ensures var r := SelectUrl(url, family, resolved);
            && (r.None? <==> || Parse(url).None? || Parse(url).value.scheme == "turns" || Parse(url).value.scheme == "stuns"
                             || forall a :: a in resolved ==> a.family != family)
            && (r.Some? ==> exists k :: IsFirst(family, resolved, k) && IsWithHost(Parse(url).value, resolved[k], r.value))
  {
    FirstIs(family, resolved);
    hide Parse, Write, FirstOf;
    if SelectUrl(url, family, resolved).Some? {
      var u, a := Parse(url).value, FirstOf(family, resolved).value;
      var bracketed := ParsedWasWritten(url);
      AddressIsHost(u, bracketed, a);
      WrittenParses(u.(host := a.text), a.family.Ipv6?);
      var k :| IsFirst(family, resolved, k) && resolved[k] == a;
      assert IsWithHost(u, resolved[k], SelectUrl(url, family, resolved).value);
    }
  }

  lemma ResolvedReadable(r: Resolver, host: string, port: nat)
    requires Honest(r)
    ensures forall a :: a in Resolve(r, host, port) ==> Readable(r, a)
  {
    hide Readable;
  }

  lemma ResolvedIs(r: Resolver, url: string, family: Family)
    requires SelectResolved(r, url, family).Some?
    ensures Parse(url).Some?
    ensures var u := Parse(url).value;
            SelectResolved(r, url, family) == SelectUrl(url, family, Resolve(r, u.host, DefaultPort(u)))
  {
    hide Parse, SelectUrl, Resolve, DefaultPort;
  }

  /** What an honest resolver leads to is read as the address it is. */
  lemma SelectedIs(r: Resolver, url: string, family: Family) returns (a: Address)
    requires Honest(r) && SelectResolved(r, url, family).Some?
    ensures Parse(url).Some? && Parse(url).value.scheme != "turns" && Parse(url).value.scheme != "stuns"
    ensures a.family == family && r.literal(a.text) == Some(a)
    ensures IsWithHost(Parse(url).value, a, SelectResolved(r, url, family).value)
  {
    hide Parse, DefaultPort, IsWithHost, SelectUrl, SelectResolved, Honest, Resolve, IsAddress;
    ResolvedIs(r, url, family);
    var u := Parse(url).value;
    var resolved := Resolve(r, u.host, DefaultPort(u));
    ResolvedReadable(r, u.host, DefaultPort(u));
    SelectMeans(url, family, resolved);
    var k :| IsFirst(family, resolved, k) && IsWithHost(u, resolved[k], SelectUrl(url, family, resolved).value);
    a := resolved[k];
    assert Readable(r, a);
  }

  lemma SelectLiteral(r: Resolver, out: string, u: Url, a: Address, family: Family)
    requires Parse(out) == Some(u) && u.host == a.text && !Secure(u.scheme) && a.family == family && r.literal(a.text) == Some(a)
    ensures SelectResolved(r, out, family) == Some(Write(u, a.family.Ipv6?))
  {
    hide Parse, Write, Secure, DefaultPort;
    assert Resolve(r, u.host, DefaultPort(u)) == [a];
    assert FirstOf(family, [a]) == Some(a);
  }

  /** Selecting from what was selected changes nothing. */
  lemma SelectTwice(r: Resolver, url: string, family: Family)
    requires Honest(r) && SelectResolved(r, url, family).Some?
    ensures SelectResolved(r, SelectResolved(r, url, family).value, family) == SelectResolved(r, url, family)
  {
    hide Parse, Write, SelectResolved, Honest;
    var a := SelectedIs(r, url, family);
    SelectLiteral(r, SelectResolved(r, url, family).value, Parse(url).value.(host := a.text), a, family);
  }

  function SelectAll(r: Resolver, urls: seq<string>, family: Family): seq<string> {
    if urls == [] then []
    else
      var before := SelectAll(r, urls[..|urls| - 1], family);
      var selected := SelectResolved(r, urls[|urls| - 1], family);
      if selected.Some? then before + [selected.value] else before
  }

  /** The URLs added to the connection's configuration, in order. */
  method ConfigureUrls(r: Resolver, urls: seq<string>, family: Family) returns (added: seq<string>)
    ensures added == SelectAll(r, urls, family)
  {
    added := [];
    hide SelectResolved;
    for i := 0 to |urls|
      invariant added == SelectAll(r, urls[..i], family)
    {
      var selected := SelectResolved(r, urls[i], family);
      assert urls[..i + 1][..i] == urls[..i];
      if selected.Some? {
        added := added + [selected.value];
      }
    }
    assert urls[..|urls|] == urls;
  }

  /** Whatever Sora announces, only URLs without TLS and with an address of the family are used. */
  lemma {:induction false} SelectAllMeans(r: Resolver, urls: seq<string>, family: Family)
    requires Honest(r)
    ensures forall out :: out in SelectAll(r, urls, family) ==>
              && Parse(out).Some? && Parse(out).value.scheme != "turns" && Parse(out).value.scheme != "stuns"
              && r.literal(Parse(out).value.host).Some? && r.literal(Parse(out).value.host).value.family == family
  {
    hide Parse, SelectResolved, Honest;
    if urls != [] {
      SelectAllMeans(r, urls[..|urls| - 1], family);
      var url := urls[|urls| - 1];
      if SelectResolved(r, url, family).Some? {
        var a := SelectedIs(r, url, family);
      }
    }
  }
}
