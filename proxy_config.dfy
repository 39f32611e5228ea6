/** The proxy setting `applyProxy` hands to `chrome.proxy.settings.set`:
    the host string, with percent-encoded credentials when both are given,
    and the fixed-servers configuration around it. */
module ProxyConfig {
  import opened ProxyData
  import Port

  /** The characters `encodeURIComponent` leaves as they are:
      A-Z a-z 0-9 - _ . ! ~ * ' ( ) */
  predicate Unreserved(c: char)
  {
    ('A' <= c <= 'Z') || ('a' <= c <= 'z') || ('0' <= c <= '9') ||
    c == '-' || c == '_' || c == '.' || c == '!' || c == '~' ||
    c == '*' || c == '\'' || c == '(' || c == ')'
  }

  /** UTF-8 encoding of one Unicode scalar value. */
  function Utf8(c: char): (bytes: seq<int>)
    ensures 1 <= |bytes| <= 4
    ensures forall i :: 0 <= i < |bytes| ==> 0 <= bytes[i] < 256
  {
    var n := c as int;
    if n < 0x80 then [n]
    else if n < 0x800 then [0xC0 + n / 0x40, 0x80 + n % 0x40]
    else if n < 0x10000 then [0xE0 + n / 0x1000, 0x80 + (n / 0x40) % 0x40, 0x80 + n % 0x40]
    else [0xF0 + n / 0x40000, 0x80 + (n / 0x1000) % 0x40, 0x80 + (n / 0x40) % 0x40, 0x80 + n % 0x40]
  }

  /** Upper-case hexadecimal digit, as `encodeURIComponent` writes them. */
  function HexDigit(d: int): (c: char)
    requires 0 <= d < 16
  {
    if d < 10 then ('0' as int + d) as char else ('A' as int + d - 10) as char
  }

  predicate IsHexDigit(c: char)
  {
    ('0' <= c <= '9') || ('A' <= c <= 'F') || ('a' <= c <= 'f')
  }

  function HexValue(c: char): (d: int)
    requires IsHexDigit(c)
    ensures 0 <= d < 16
  {
    if '0' <= c <= '9' then c as int - '0' as int
    else if 'A' <= c <= 'F' then c as int - 'A' as int + 10
    else c as int - 'a' as int + 10
  }

  /** "%XY" for every byte. */
  function PercentTriplets(bytes: seq<int>): (s: string)
    requires forall i :: 0 <= i < |bytes| ==> 0 <= bytes[i] < 256
    ensures |s| == 3 * |bytes|
  {
    if bytes == [] then []
    else ['%', HexDigit(bytes[0] / 16), HexDigit(bytes[0] % 16)] + PercentTriplets(bytes[1..])
  }

  function EncodeChar(c: char): (r: string)
    ensures 1 <= |r| <= 12
  {
    if Unreserved(c) then [c] else PercentTriplets(Utf8(c))
  }

  /** ECMAScript `encodeURIComponent`, i.e. the percent-encoding of
      section 2.1 of RFC 3986 applied to the UTF-8 bytes of every
      character outside the unreserved set. Dafny strings hold Unicode
      scalar values, so the lone-surrogate URIError cannot arise. */
  function EncodeURIComponent(s: string): (r: string)
    ensures |s| <= |r| <= 12 * |s|
  {
    if s == [] then [] else EncodeChar(s[0]) + EncodeURIComponent(s[1..])
  }

  /** Every character of an encoding is unreserved, '%', or an upper-case
      hex digit. */
  predicate EncodedChar(c: char)
  {
    Unreserved(c) || c == '%'
  }

  lemma {:induction false} TripletsEncoded(bytes: seq<int>)
    requires forall i :: 0 <= i < |bytes| ==> 0 <= bytes[i] < 256
    ensures forall i :: 0 <= i < |PercentTriplets(bytes)| ==> EncodedChar(PercentTriplets(bytes)[i])
  {
    if bytes != [] {
      TripletsEncoded(bytes[1..]);
    }
  }

  /** The output of `encodeURIComponent` holds only unreserved characters
      and '%'; in particular no ':' and no '@'. */
  lemma {:induction false} EncodingAlphabet(s: string)
    ensures forall i :: 0 <= i < |EncodeURIComponent(s)| ==> EncodedChar(EncodeURIComponent(s)[i])
  {
    if s != [] {
      if !Unreserved(s[0]) {
        TripletsEncoded(Utf8(s[0]));
      }
      EncodingAlphabet(s[1..]);
      var e, rest := EncodeChar(s[0]), EncodeURIComponent(s[1..]);
      assert EncodeURIComponent(s) == e + rest;
      forall i | 0 <= i < |e + rest| ensures EncodedChar((e + rest)[i]) {
        if i >= |e| { assert (e + rest)[i] == rest[i - |e|]; }
      }
    }
  }

  /** A string of unreserved characters is encoded as itself. */
  lemma {:induction false} EncodeUnreservedIdentity(s: string)
    requires forall i :: 0 <= i < |s| ==> Unreserved(s[i])
    ensures EncodeURIComponent(s) == s
  {
    if s != [] {
      EncodeUnreservedIdentity(s[1..]);
      assert s == [s[0]] + s[1..];
    }
  }

  /** Percent-decoding at the byte level: each "%XY" is one byte, every
      other character its own code. */
  function PercentDecode(s: string): seq<int>
  {
    if |s| >= 3 && s[0] == '%' && IsHexDigit(s[1]) && IsHexDigit(s[2]) then
      [16 * HexValue(s[1]) + HexValue(s[2])] + PercentDecode(s[3..])
    else if s == [] then []
    else [s[0] as int] + PercentDecode(s[1..])
  }

  function Utf8Bytes(s: string): seq<int>
  {
    if s == [] then [] else Utf8(s[0]) + Utf8Bytes(s[1..])
  }

  lemma HexRoundTrip(d: int)
    requires 0 <= d < 16
    ensures IsHexDigit(HexDigit(d)) && HexValue(HexDigit(d)) == d
  {
  }

  lemma {:induction false} DecodeTriplets(bytes: seq<int>, rest: string)
    requires forall i :: 0 <= i < |bytes| ==> 0 <= bytes[i] < 256
    ensures PercentDecode(PercentTriplets(bytes) + rest) == bytes + PercentDecode(rest)
  {
    if bytes == [] {
      assert PercentTriplets(bytes) + rest == rest;
    } else {
      var b := bytes[0];
      HexRoundTrip(b / 16);
      HexRoundTrip(b % 16);
      var t := PercentTriplets(bytes[1..]);
      var whole := PercentTriplets(bytes) + rest;
      assert whole == ['%', HexDigit(b / 16), HexDigit(b % 16)] + (t + rest);
      assert whole[3..] == t + rest;
      DecodeTriplets(bytes[1..], rest);
      assert bytes == [b] + bytes[1..];
    }
  }

  /** Percent-decoding undoes `encodeURIComponent`, giving back the UTF-8
      bytes of the original string. */
  lemma {:induction false} DecodeEncode(s: string)
    ensures PercentDecode(EncodeURIComponent(s)) == Utf8Bytes(s)
  {
    if s != [] {
      var c := s[0];
      var rest := EncodeURIComponent(s[1..]);
      assert EncodeURIComponent(s) == EncodeChar(c) + rest;
      DecodeEncode(s[1..]);
      if Unreserved(c) {
        assert ([c] + rest)[1..] == rest;
      } else {
        DecodeTriplets(Utf8(c), rest);
      }
    }
  }

  /** The host string of `applyProxy`: `user:pass@host` with both parts
      percent-encoded when username and password are both non-empty, the
      bare host otherwise. */
  function ProxyHost(host: string, username: string, password: string): (r: string)
    ensures r == host <==> username == [] || password == []
    ensures |host| <= |r| && r[|r| - |host|..] == host
  {
    if username != [] && password != [] then
      EncodeURIComponent(username) + ":" + EncodeURIComponent(password) + "@" + host
    else host
  }

  /** The argument of `chrome.proxy.settings.set`; `port` is `parseInt` of
      the profile's port, None standing for NaN. */
  datatype Config = Config(
    mode: string,
    scheme: string,
    host: string,
    port: Option<int>,
    bypassList: seq<string>)

  function ConfigFor(p: Profile): (c: Config)
    ensures Port.PortValid(p.port) ==> c.port.Some? && 1 <= c.port.value <= 65535
  {
    Config("fixed_servers", "http", ProxyHost(p.host, p.username, p.password),
           Port.ParseInt(p.port), ["<local>"])
  }

  /** Index of the first occurrence of `c` in `s`, or |s|. */
  function FirstIndexOf(s: string, c: char): (i: nat)
    ensures i <= |s|
    ensures forall j :: 0 <= j < i ==> s[j] != c
    ensures i < |s| ==> s[i] == c
  {
    if s == [] || s[0] == c then 0 else 1 + FirstIndexOf(s[1..], c)
  }

  lemma FirstIndexAfterPrefix(a: string, b: string, c: char)
    requires forall j :: 0 <= j < |a| ==> a[j] != c
    ensures FirstIndexOf(a + b, c) == |a| + FirstIndexOf(b, c)
  {
    if a != [] {
      assert (a + b)[1..] == a[1..] + b;
      FirstIndexAfterPrefix(a[1..], b, c);
    } else {
      assert a + b == b;
    }
  }

  predicate Free(s: string, c: char)
  {
    forall j :: 0 <= j < |s| ==> s[j] != c
  }

  lemma EncodedFree(s: string)
    ensures Free(EncodeURIComponent(s), ':') && Free(EncodeURIComponent(s), '@')
  {
    EncodingAlphabet(s);
  }

  lemma SplitCredentials(eu: string, ep: string, host: string)
    requires Free(eu, ':') && Free(eu, '@') && Free(ep, '@')
    ensures var ph := eu + ":" + ep + "@" + host;
            var at := FirstIndexOf(ph, '@');
            FirstIndexOf(ph, ':') == |eu| &&
            at == |eu| + 1 + |ep| &&
            ph[..|eu|] == eu && ph[|eu| + 1..at] == ep && ph[at + 1..] == host
  {
    var ph := eu + ":" + ep + "@" + host;
    assert ph == eu + (":" + ep + "@" + host);
    FirstIndexAfterPrefix(eu, ":" + ep + "@" + host, ':');
    var cred := eu + ":" + ep;
    assert Free(cred, '@') by {
      forall j | 0 <= j < |cred| ensures cred[j] != '@' {
        if j < |eu| { assert cred[j] == eu[j]; }
        else if j > |eu| { assert cred[j] == ep[j - |eu| - 1]; }
      }
    }
    assert ph == cred + ("@" + host);
    FirstIndexAfterPrefix(cred, "@" + host, '@');
  }

  /** The credential part of the host string is recoverable whatever the
      host contains: the first '@' ends it, the first ':' splits it, and
      what follows the '@' is the host as configured. */
  lemma ProxyHostSplits(host: string, username: string, password: string)
    requires username != [] && password != []
    ensures var ph := ProxyHost(host, username, password);
            var eu, ep := EncodeURIComponent(username), EncodeURIComponent(password);
            var at := FirstIndexOf(ph, '@');
            FirstIndexOf(ph, ':') == |eu| &&
            at == |eu| + 1 + |ep| &&
            ph[..|eu|] == eu && ph[|eu| + 1..at] == ep && ph[at + 1..] == host
  {
    EncodedFree(username);
    EncodedFree(password);
    SplitCredentials(EncodeURIComponent(username), EncodeURIComponent(password), host);
  }

  /** Without both credentials the host string is the bare host. */
  lemma ProxyHostBare(host: string, username: string, password: string)
    requires username == [] || password == []
    ensures ProxyHost(host, username, password) == host
  {
  }

  /** The configuration is always a single fixed HTTP server with local
      addresses bypassed, at the host string and at `parseInt` of the port. */
  lemma ConfigShape(p: Profile)
    ensures var c := ConfigFor(p);
            c.mode == "fixed_servers" && c.scheme == "http" && c.bypassList == ["<local>"] &&
            c.host == ProxyHost(p.host, p.username, p.password) &&
            c.port == Port.ParseInt(p.port)
  {
  }

  lemma EncodeAt()
    ensures EncodeChar('@') == "%40"
  {
    assert !Unreserved('@');
    assert Utf8('@') == [64];
    assert PercentTriplets([64]) == ['%', HexDigit(4), HexDigit(0)] + PercentTriplets([]);
  }

  lemma EncodePassword()
    ensures EncodeURIComponent("p@ss") == "p%40ss"
  {
    EncodeUnreservedIdentity("ss");
    EncodeAt();
    assert "@ss"[1..] == "ss";
    assert EncodeURIComponent("@ss") == "%40" + "ss";
    assert "p@ss"[1..] == "@ss";
    assert EncodeChar('p') == "p";
    assert EncodeURIComponent("p@ss") == "p" + "%40ss";
  }

  lemma EncodeUser()
    ensures EncodeURIComponent("user") == "user"
  {
    EncodeUnreservedIdentity("user");
  }

  /** The credential example: user "user" with password "p@ss" at
      proxy.example.com gives "user:p%40ss@proxy.example.com". */
  lemma CredentialExample()
    ensures ProxyHost("proxy.example.com", "user", "p@ss") ==
            "user" + ":" + "p%40ss" + "@" + "proxy.example.com"
  {
    EncodeUser();
    EncodePassword();
  }
}
