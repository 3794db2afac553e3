/**
 * JavaScript's `parseInt(text)` and `Number.prototype.toString()` on the
 * integers the storefront stores as text (the daily order limit, fees,
 * quantities). Money and counts are mathematical integers; NaN is `None`.
 */
module JsNumber {
  import opened Common
  import opened Text

  predicate IsDigit(c: char) { '0' <= c <= '9' }

  function DigitValue(c: char): nat
    requires IsDigit(c)
  {
    c as int - '0' as int
  }

  function DigitChar(d: nat): (c: char)
    requires d < 10
    ensures IsDigit(c) && DigitValue(c) == d
  {
    ('0' as int + d) as char
  }

  /** Number of decimal digits at the front of `s`. */
  function LeadingDigits(s: string): (n: nat)
    ensures n <= |s|
    ensures forall i :: 0 <= i < n ==> IsDigit(s[i])
    ensures n < |s| ==> !IsDigit(s[n])
  {
    if s != [] && IsDigit(s[0]) then 1 + LeadingDigits(s[1..]) else 0
  }

  /** The value of a string of decimal digits, most significant first. */
  function DigitsValue(d: string): nat
    requires forall i :: 0 <= i < |d| ==> IsDigit(d[i])
  {
    if d == [] then 0 else 10 * DigitsValue(d[..|d| - 1]) + DigitValue(d[|d| - 1])
  }

  /** `t` without one leading sign character. */
  function Unsigned(t: string): (u: string)
    ensures |u| <= |t|
  {
    if t != [] && (t[0] == '-' || t[0] == '+') then t[1..] else t
  }

  /** The digits of base 16, in either case. */
  predicate IsHexDigit(c: char) { IsDigit(c) || 'a' <= c <= 'f' || 'A' <= c <= 'F' }

  function HexDigitValue(c: char): (v: nat)
    requires IsHexDigit(c)
    ensures v < 16
  {
    if IsDigit(c) then DigitValue(c)
    else if 'a' <= c <= 'f' then c as int - 'a' as int + 10
    else c as int - 'A' as int + 10
  }

  /** Number of hexadecimal digits at the front of `s`. */
  function LeadingHexDigits(s: string): (n: nat)
    ensures n <= |s|
    ensures forall i :: 0 <= i < n ==> IsHexDigit(s[i])
    ensures n < |s| ==> !IsHexDigit(s[n])
  {
    if s != [] && IsHexDigit(s[0]) then 1 + LeadingHexDigits(s[1..]) else 0
  }

  /** The value of a string of hexadecimal digits, most significant first. */
  function HexDigitsValue(d: string): nat
    requires forall i :: 0 <= i < |d| ==> IsHexDigit(d[i])
  {
    if d == [] then 0 else 16 * HexDigitsValue(d[..|d| - 1]) + HexDigitValue(d[|d| - 1])
  }

  /** `u` starts with "0x" or "0X", which `parseInt` without a radix reads as base 16. */
  predicate HasHexPrefix(u: string) {
    |u| >= 2 && u[0] == '0' && (u[1] == 'x' || u[1] == 'X')
  }

  /**
   * The longest run of decimal digits at the front of `u`, as a number;
   * no digit at all is NaN.
   */
  function DecimalPrefix(u: string): (r: Option<nat>)
    ensures r.Some? <==> u != [] && IsDigit(u[0])
  {
    var n := LeadingDigits(u);
    if n == 0 then None else Some(DigitsValue(u[..n]))
  }

  /** The same for hexadecimal digits. */
  function HexPrefix(u: string): (r: Option<nat>)
    ensures r.Some? <==> u != [] && IsHexDigit(u[0])
  {
    var n := LeadingHexDigits(u);
    if n == 0 then None else Some(HexDigitsValue(u[..n]))
  }

  /** `-v` for a leading minus sign. */
  function Signed(t: string, v: Option<nat>): (r: Option<int>)
    ensures r.Some? <==> v.Some?
  {
    if v.None? then None
    else
      var n: int := v.value;
      Some(if t != [] && t[0] == '-' then -n else n)
  }

  /**
   * `parseInt(s)` without a radix: skip leading whitespace, read an
   * optional sign, then a "0x"/"0X" prefix switches to base 16; the longest
   * run of digits of the base is the number and no digit at all is NaN.
   */
  function ParseInt(s: string): (r: Option<int>)
    ensures var u := Unsigned(TrimStart(s));
            r.Some? <==> if HasHexPrefix(u) then |u| > 2 && IsHexDigit(u[2]) else u != [] && IsDigit(u[0])
  {
    var t := TrimStart(s);
    var u := Unsigned(t);
    Signed(t, if HasHexPrefix(u) then HexPrefix(u[2..]) else DecimalPrefix(u))
  }

  /**
   * `parseFloat(s)` on whole numbers: the same decimal reading, where a
   * "0x" prefix is just the number 0.
   */
  function ParseFloat(s: string): (r: Option<int>)
    ensures r.Some? <==> Unsigned(TrimStart(s)) != [] && IsDigit(Unsigned(TrimStart(s))[0])
  {
    var t := TrimStart(s);
    Signed(t, DecimalPrefix(Unsigned(t)))
  }

  /** On text without a hexadecimal prefix the two parses agree. */
  lemma ParseIntIsDecimalWithoutPrefix(s: string)
    requires !HasHexPrefix(Unsigned(TrimStart(s)))
    ensures ParseInt(s) == ParseFloat(s)
  {
  }

  /** Decimal digits of a natural number, without leading zeros. */
  function NatToString(n: nat): (s: string)
    ensures |s| >= 1
    ensures forall i :: 0 <= i < |s| ==> IsDigit(s[i])
    ensures DigitsValue(s) == n
  {
    if n < 10 then [DigitChar(n)]
    else
      var s := NatToString(n / 10) + [DigitChar(n % 10)];
      assert s[..|s| - 1] == NatToString(n / 10);
      s
  }

  /** `n.toString()` for an integer. */
  function IntToString(n: int): (s: string)
    ensures s != []
  {
    if n < 0 then "-" + NatToString(-n) else NatToString(n)
  }

  /** `String(x)` for a number that may be NaN. */
  function NumberToString(x: Option<int>): (s: string)
    ensures s != []
  {
    match x
    case Some(n) => IntToString(n)
    case None => "NaN"
  }

  /** Parsing what `toString` printed gives the integer back. */
  lemma IntToStringRoundTrip(n: int)
    ensures ParseInt(IntToString(n)) == Some(n)
  {
    var s := IntToString(n);
    var d := NatToString(if n < 0 then -n else n);
    assert !IsSpace(s[0]);
    assert TrimStart(s) == s;
    if n < 0 {
      assert s[1..] == d;
    }
    assert Unsigned(s) == d;
    assert !HasHexPrefix(d) by {
      if |d| >= 2 { assert IsDigit(d[1]); }
    }
    assert LeadingDigits(d) == |d|;
    assert d[..|d|] == d;
  }

  /** NaN prints as "NaN", which parses back to NaN. */
  lemma NumberToStringRoundTrip(x: Option<int>)
    ensures ParseInt(NumberToString(x)) == x
  {
    if x.Some? {
      IntToStringRoundTrip(x.value);
    } else {
      assert TrimStart("NaN") == "NaN";
    }
  }

  /** `parseInt(text) || 0`: NaN (and 0) become 0. */
  function ParseIntOrZero(text: string): (n: int)
    ensures ParseInt(text).Some? ==> n == ParseInt(text).value
    ensures ParseInt(text).None? ==> n == 0
  {
    ParseInt(text).GetOr(0)
  }

  /** `parseFloat(text) || 0` on whole numbers. */
  function ParseFloatOrZero(text: string): (n: int)
    ensures ParseFloat(text).Some? ==> n == ParseFloat(text).value
    ensures ParseFloat(text).None? ==> n == 0
  {
    ParseFloat(text).GetOr(0)
  }

  /** Two hexadecimal digits read as high digit times 16 plus low digit. */
  lemma TwoHexDigits(d: string)
    requires |d| == 2 && IsHexDigit(d[0]) && IsHexDigit(d[1])
    ensures LeadingHexDigits(d) == 2
    ensures HexDigitsValue(d) == 16 * HexDigitValue(d[0]) + HexDigitValue(d[1])
  {
    assert d[1..][1..] == [];
    assert LeadingHexDigits(d[1..][1..]) == 0;
    var hi := d[..1];
    assert hi[..0] == [] && hi[0] == d[0];
    assert HexDigitsValue(hi) == HexDigitValue(d[0]);
    assert d[..2] == d && d[..|d| - 1] == hi;
  }

  /** `parseInt("0x1f")` is 31: the prefix switches to base 16. */
  lemma HexLower()
    ensures ParseInt("0x1f") == Some(31)
  {
    var u := "0x1f";
    ParseIntOfHex(u);
    assert u[2..] == "1f";
    assert HexPrefix("1f") == Some(31) by {
      TwoHexDigits("1f");
    }
  }

  lemma ParseIntOfHex(t: string)
    requires t != [] && !IsSpace(t[0]) && HasHexPrefix(Unsigned(t))
    ensures ParseInt(t) == Signed(t, HexPrefix(Unsigned(t)[2..]))
  {
  }

  /** `parseInt("-0X1F")` is -31: the sign comes before the prefix. */
  lemma HexUpperNegative()
    ensures ParseInt("-0X1F") == Some(-31)
  {
    var t := "-0X1F";
    var u := "0X1F";
    assert TrimStart(t) == t && Unsigned(t) == u && HasHexPrefix(u);
    assert u[2..] == "1F";
    TwoHexDigits("1F");
    assert HexPrefix("1F") == Some(31);
    assert ParseInt(t) == Signed(t, HexPrefix("1F"));
  }

  /** `parseInt("0x")` is NaN: no hexadecimal digit follows the prefix. */
  lemma HexPrefixAlone()
    ensures ParseInt("0x") == None
  {
    assert TrimStart("0x") == "0x";
  }

  /** `parseFloat("0x1f")` is 0: it knows no prefix. */
  lemma FloatIgnoresHexPrefix()
    ensures ParseFloat("0x1f") == Some(0)
  {
    assert TrimStart("0x1f") == "0x1f";
    assert LeadingDigits("0x1f") == 1;
    assert "0x1f"[..1] == "0";
    assert "0"[..0] == "";
  }
}
