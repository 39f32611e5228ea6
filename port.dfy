/** ECMAScript `parseInt(string)` with no radix argument, as the worker uses it
    on a profile's port, and the worker's port rule built on it.
    NaN is `None`; a numeric result is an exact integer. JavaScript returns a
    double, rounding any result above 2^53, but all such values exceed 65535,
    so the port rule decides the same. */
module Port {
  import opened ProxyData

  /** StrWhiteSpaceChar: the white space and line terminators parseInt skips. */
  predicate IsJsWhitespace(c: char)
  {
    c == '\t' || c == '\n' || c == '\U{000B}' || c == '\U{000C}' || c == '\r' ||
    c == ' ' || c == '\U{00A0}' || c == '\U{1680}' || ('\U{2000}' <= c <= '\U{200A}') ||
    c == '\U{2028}' || c == '\U{2029}' || c == '\U{202F}' || c == '\U{205F}' ||
    c == '\U{3000}' || c == '\U{FEFF}'
  }

  /** The number of white-space characters in front of `s`. */
  function LeadingSpace(s: string): (n: nat)
    ensures n <= |s|
    ensures forall i :: 0 <= i < n ==> IsJsWhitespace(s[i])
    ensures n < |s| ==> !IsJsWhitespace(s[n])
  {
    if s == [] || !IsJsWhitespace(s[0]) then 0 else 1 + LeadingSpace(s[1..])
  }

  /** No printable ASCII character other than the space is white space. */
  lemma PrintableNotSpace(c: char)
    requires '!' <= c <= '~'
    ensures !IsJsWhitespace(c)
  {
  }

  /** The value of a character as a digit in radix up to 36; 36 for a
      character that is no digit at all. */
  function DigitValue(c: char): (d: nat)
    ensures d <= 36
  {
    if '0' <= c <= '9' then c as int - '0' as int
    else if 'a' <= c <= 'z' then c as int - 'a' as int + 10
    else if 'A' <= c <= 'Z' then c as int - 'A' as int + 10
    else 36
  }

  predicate IsDigit(c: char, radix: nat)
  {
    DigitValue(c) < radix
  }

  /** Length of the longest prefix of `s` made of digits of `radix`. */
  function DigitRun(s: string, radix: nat): (n: nat)
    ensures n <= |s|
    ensures forall i :: 0 <= i < n ==> IsDigit(s[i], radix)
    ensures n < |s| ==> !IsDigit(s[n], radix)
  {
    if s == [] || !IsDigit(s[0], radix) then 0 else 1 + DigitRun(s[1..], radix)
  }

  /** Positional value of a digit string, most significant digit first. */
  function DigitsValue(ds: string, radix: nat): nat
  {
    if ds == [] then 0
    else DigitsValue(ds[..|ds| - 1], radix) * radix + DigitValue(ds[|ds| - 1])
  }

  /** The digits after the sign: radix 16 on a "0x"/"0X" prefix, radix 10
      otherwise; the longest digit prefix is read and no digit at all is NaN. */
  function ParseUnsigned(u: string): Option<nat>
  {
    var hex := |u| >= 2 && u[0] == '0' && (u[1] == 'x' || u[1] == 'X');
    var radix := if hex then 16 else 10;
    var v := if hex then u[2..] else u;
    var n := DigitRun(v, radix);
    if n == 0 then None else Some(DigitsValue(v[..n], radix))
  }

  function Widen(o: Option<nat>): Option<int>
  {
    match o
    case None => None
    case Some(m) => Some(m)
  }

  /** An optional sign, then the digits. */
  function ParseSigned(t: string): Option<int>
  {
    if t != [] && t[0] == '-' then
      match ParseUnsigned(t[1..])
      case None => None
      case Some(m) => Some(-(m as int))
    else if t != [] && t[0] == '+' then Widen(ParseUnsigned(t[1..]))
    else Widen(ParseUnsigned(t))
  }

  /** parseInt(s): skip leading white space, read an optional sign, then the
      digits. */
  function ParseInt(s: string): (r: Option<int>)
    ensures LeadingSpace(s) == |s| ==> r.None?
    ensures r.Some? && r.value < 0 ==> LeadingSpace(s) < |s| && s[LeadingSpace(s)] == '-'
  {
    ParseSigned(s[LeadingSpace(s)..])
  }

  /** A string that starts with a decimal digit is parsed with no white
      space or sign step. */
  lemma ParseIntAtDigit(s: string)
    requires s != [] && '0' <= s[0] <= '9'
    ensures ParseInt(s) == Widen(ParseUnsigned(s))
  {
    PrintableNotSpace(s[0]);
    assert s[0..] == s;
  }

  /** The worker's port rule: `isNaN(port) || port <= 0 || port > 65535`
      rejects. */
  predicate PortValid(port: string): (ok: bool)
    ensures ok <==> ParseInt(port).Some? && 1 <= ParseInt(port).value <= 65535
    ensures ok ==> LeadingSpace(port) < |port| &&
                   (port[LeadingSpace(port)] == '+' || '0' <= port[LeadingSpace(port)] <= '9')
  {
    match ParseInt(port)
    case None => false
    case Some(n) => 1 <= n <= 65535
  }

  predicate IsDecimal(s: string)
  {
    forall i :: 0 <= i < |s| ==> '0' <= s[i] <= '9'
  }

  /** The shortest decimal numeral of `n`, which is what `n.toString()`
      writes for n < 10^21 (from 10^21 on JavaScript uses exponent notation). */
  function DecimalString(n: nat): (s: string)
    ensures |s| >= 1 && IsDecimal(s)
    ensures s[0] == '0' ==> n == 0 && |s| == 1
  {
    if n < 10 then [('0' as int + n) as char]
    else DecimalString(n / 10) + [('0' as int + n % 10) as char]
  }

  lemma {:induction false} DecimalValue(n: nat)
    ensures DigitsValue(DecimalString(n), 10) == n
  {
    if n >= 10 {
      var s := DecimalString(n);
      assert s[..|s| - 1] == DecimalString(n / 10);
      DecimalValue(n / 10);
    }
  }

  lemma {:induction false} DigitRunAppend(s: string, t: string, radix: nat)
    requires forall i :: 0 <= i < |s| ==> IsDigit(s[i], radix)
    requires t == [] || !IsDigit(t[0], radix)
    ensures DigitRun(s + t, radix) == |s|
  {
    if s != [] {
      assert (s + t)[1..] == s[1..] + t;
      DigitRunAppend(s[1..], t, radix);
    } else {
      assert s + t == t;
    }
  }

  lemma UnsignedDecimal(s: string, t: string)
    requires |s| >= 1 && IsDecimal(s)
    requires t == [] || (!('0' <= t[0] <= '9') && t[0] != 'x' && t[0] != 'X')
    ensures ParseUnsigned(s + t) == Some(DigitsValue(s, 10))
  {
    var u := s + t;
    assert u[0] == s[0];
    assert |u| >= 2 ==> u[1] != 'x' && u[1] != 'X' by {
      if |u| >= 2 && |s| >= 2 { assert u[1] == s[1]; }
    }
    DigitRunAppend(s, t, 10);
    assert u[..|s|] == s;
  }

  /** parseInt reads only a leading decimal numeral: whatever follows the
      first character that is no digit (and does not turn "0" into a hex
      prefix) is ignored, so "80abc" parses as 80. */
  lemma ParseIntIgnoresTail(s: string, t: string)
    requires |s| >= 1 && IsDecimal(s)
    requires t == [] || (!('0' <= t[0] <= '9') && t[0] != 'x' && t[0] != 'X')
    ensures ParseInt(s + t) == ParseInt(s) == Some(DigitsValue(s, 10))
  {
    assert (s + t)[0] == s[0];
    ParseIntAtDigit(s + t);
    ParseIntAtDigit(s);
    UnsignedDecimal(s, t);
    UnsignedDecimal(s, []);
    assert s + [] == s;
  }

  /** Round trip: parseInt reads back the decimal numeral of every natural
      number; for n < 10^21 that is the numeral `n.toString()` writes. */
  lemma ParseIntOfDecimal(n: nat)
    ensures ParseInt(DecimalString(n)) == Some(n)
  {
    var s := DecimalString(n);
    ParseIntAtDigit(s);
    UnsignedDecimal(s, []);
    assert s + [] == s;
    DecimalValue(n);
  }

  /** The port rule on a plain numeral accepts exactly 1..65535. */
  lemma PortValidDecimal(n: nat)
    ensures PortValid(DecimalString(n)) <==> 1 <= n <= 65535
  {
    ParseIntOfDecimal(n);
  }

  lemma Numeral6553()
    ensures DecimalString(6553) == "6553"
  {
    assert DecimalString(65) == "65";
    assert DecimalString(655) == "655";
  }

  /** Out-of-range ports: 0 and 65536 are rejected. */
  lemma PortRejectsOutOfRange()
    ensures !PortValid("0") && !PortValid("65536")
  {
    assert DecimalString(0) == "0";
    PortValidDecimal(0);
    Numeral6553();
    assert DecimalString(65536) == "65536";
    PortValidDecimal(65536);
  }

  /** Ports at both ends of the range, 1 and 65535, are accepted. */
  lemma PortAcceptsRangeEnds()
    ensures PortValid("1") && PortValid("65535")
  {
    assert DecimalString(1) == "1";
    PortValidDecimal(1);
    Numeral6553();
    assert DecimalString(65535) == "65535";
    PortValidDecimal(65535);
  }

  /** The usual proxy port 8080 is accepted. */
  lemma PortAccepts8080()
    ensures PortValid("8080")
  {
    assert DecimalString(80) == "80";
    assert DecimalString(808) == "808";
    assert DecimalString(8080) == "8080";
    PortValidDecimal(8080);
  }

  lemma Value80()
    ensures DigitsValue("80", 10) == 80
  {
    assert "80"[..1] == "8";
    assert ""[..0] == "";
  }

  /** A numeral followed by letters is accepted on its numeric prefix. */
  lemma PortWithTrailingLetters()
    ensures ParseInt("80abc") == Some(80) && PortValid("80abc")
  {
    ParseIntIgnoresTail("80", "abc");
    assert "80" + "abc" == "80abc";
    Value80();
  }

  /** Non-numeric, empty and negative ports are rejected. */
  lemma PortRejectsNonNumeric()
    ensures ParseInt("abc") == None && ParseInt("") == None
    ensures ParseInt("-80") == Some(-80) && !PortValid("-80")
  {
    PrintableNotSpace('a');
    assert "abc"[0..] == "abc";
    assert DigitRun("abc", 10) == 0;
    PrintableNotSpace('-');
    assert "-80"[0..] == "-80";
    assert "-80"[1..] == "80";
    UnsignedDecimal("80", []);
    assert "80" + [] == "80";
    Value80();
  }

  /** Leading white space and a plus sign are skipped. */
  lemma ParseIntSkipsSpaceAndSign()
    ensures ParseInt(" +443") == Some(443)
  {
    PrintableNotSpace('+');
    assert LeadingSpace(" +443") == 1;
    assert " +443"[1..] == "+443";
    assert "+443"[1..] == "443";
    UnsignedDecimal("443", []);
    assert "443" + [] == "443";
    assert "443"[..2] == "44";
    assert "44"[..1] == "4";
  }

  /** The hex prefix: "0x1F" is 31, a bare "0x" is NaN. */
  lemma HexPrefixExamples()
    ensures ParseInt("0x1F") == Some(31) && ParseInt("0x") == None
  {
    PrintableNotSpace('0');
    assert "0x1F"[0..] == "0x1F";
    assert "0x1F"[2..] == "1F";
    assert DigitRun("1F", 16) == 2;
    assert "1F"[..2] == "1F";
    assert "1F"[..1] == "1";
    assert DigitsValue("1F", 16) == 31;
    assert "0x"[0..] == "0x";
    assert "0x"[2..] == [];
  }
}
