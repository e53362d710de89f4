/**
 * String-to-number conversions of the JavaScript runtime that the track code
 * relies on: `Number(s)` (ToNumber applied to a string, section 7.1.4.1.1 of
 * ECMA-262) and `parseFloat(s)` (section 19.2.4 of ECMA-262).
 *
 * Both are written as small scanners over the grammar StrDecimalLiteral:
 * optional sign, then `Infinity`, or a digit string with an optional
 * fraction and an optional exponent. The value produced is the exact real
 * the literal denotes (rounding to the nearest binary64 value is not
 * modelled).
 */
module NumericStrings {
  import opened Wrappers
  import opened JsNumbers

  /** StrWhiteSpaceChar: WhiteSpace and LineTerminator code points. */
  predicate IsStrWhiteSpace(c: char) {
    c == '\t' || c == '\U{B}' || c == '\U{C}' || c == ' ' || c == '\U{A0}' || c == '\U{FEFF}'
    || c == '\n' || c == '\r' || c == '\U{2028}' || c == '\U{2029}'
    || c == '\U{1680}' || ('\U{2000}' <= c <= '\U{200A}') || c == '\U{202F}' || c == '\U{205F}'
    || c == '\U{3000}'
  }

  predicate IsDecimalDigit(c: char) {
    '0' <= c <= '9'
  }

  /** The value of a hexadecimal digit (decimal digits included); 0 for other characters. */
  function DigitValue(c: char): nat {
    if '0' <= c <= '9' then c as nat - '0' as nat
    else if 'a' <= c <= 'f' then c as nat - 'a' as nat + 10
    else if 'A' <= c <= 'F' then c as nat - 'A' as nat + 10
    else 0
  }

  predicate IsDigitIn(c: char, base: nat) {
    ('0' <= c <= '9' || 'a' <= c <= 'f' || 'A' <= c <= 'F') && DigitValue(c) < base
  }

  /** The value of a digit string in the given base, most significant digit first. */
  function DigitsValue(d: string, base: nat): nat {
    if d == [] then 0 else DigitsValue(d[..|d| - 1], base) * base + DigitValue(d[|d| - 1])
  }

  function TrimStart(s: string): string {
    if s != [] && IsStrWhiteSpace(s[0]) then TrimStart(s[1..]) else s
  }

  function TrimEnd(s: string): string {
    if s != [] && IsStrWhiteSpace(s[|s| - 1]) then TrimEnd(s[..|s| - 1]) else s
  }

  function Trim(s: string): string {
    TrimEnd(TrimStart(s))
  }

  /** `x` times 10 raised to the power `e`, one factor of ten at a time. */
  function ScaleBy(x: real, e: int): real
    decreases if e < 0 then -e else e
  {
    if e == 0 then x else if e > 0 then ScaleBy(x * 10.0, e - 1) else ScaleBy(x / 10.0, e + 1)
  }

  /** The index just past the maximal run of decimal digits that starts at `i`. */
  function DigitsEnd(s: string, i: nat): (j: nat)
    requires i <= |s|
    ensures i <= j <= |s|
    ensures forall k :: i <= k < j ==> IsDecimalDigit(s[k])
    ensures j == |s| || !IsDecimalDigit(s[j])
    decreases |s| - i
  {
    if i < |s| && IsDecimalDigit(s[i]) then DigitsEnd(s, i + 1) else i
  }

  /** The end of an ExponentPart starting at `j` and its value, or (j, 0) when none is there. */
  function Exponent(s: string, j: nat): (r: (nat, int))
    requires j <= |s|
    ensures j <= r.0 <= |s|
  {
    if j < |s| && (s[j] == 'e' || s[j] == 'E') then
      var signed := j + 1 < |s| && (s[j + 1] == '+' || s[j + 1] == '-');
      var k := if signed then j + 2 else j + 1;
      var m := DigitsEnd(s, k);
      if m > k then
        var magnitude: int := DigitsValue(s[k..m], 10);
        (m, if signed && s[j + 1] == '-' then -magnitude else magnitude)
      else (j, 0)
    else (j, 0)
  }

  /** Where the longest prefix of a StrUnsignedDecimalLiteral ends, and its value. */
  datatype DecimalScan = DecimalScan(end: nat, value: real)

  /** The end of the integer digits of a literal at the start of `s`. */
  function IntegerEnd(s: string): nat
    ensures IntegerEnd(s) <= |s|
  {
    DigitsEnd(s, 0)
  }

  /** Whether a decimal point follows the integer digits. */
  predicate HasPoint(s: string) {
    IntegerEnd(s) < |s| && s[IntegerEnd(s)] == '.'
  }

  /** The end of the mantissa: the integer digits, and the point and fraction digits if any. */
  function MantissaEnd(s: string): (j: nat)
    ensures IntegerEnd(s) <= j <= |s|
  {
    if HasPoint(s) then DigitsEnd(s, IntegerEnd(s) + 1) else IntegerEnd(s)
  }

  function Fraction(s: string): string {
    if HasPoint(s) then s[IntegerEnd(s) + 1..MantissaEnd(s)] else ""
  }

  /**
   * The longest prefix of `s` that is a StrUnsignedDecimalLiteral without
   * `Infinity`: digits, an optional `.` and fraction digits (at least one
   * digit in all), then an optional exponent. None when no prefix is one.
   */
  function ScanDecimal(s: string): (r: Option<DecimalScan>)
    ensures r.Some? ==> 0 < r.value.end <= |s|
  {
    if IntegerEnd(s) == 0 && MantissaEnd(s) <= 1 then None
    else Some(DecimalScan(Exponent(s, MantissaEnd(s)).0, LiteralValue(s)))
  }

  /** The value of the literal at the start of `s`: its digits scaled by the exponent less the fraction length. */
  function LiteralValue(s: string): real {
    var digits := DigitsValue(s[..IntegerEnd(s)] + Fraction(s), 10);
    ScaleBy(digits as real, Exponent(s, MantissaEnd(s)).1 - |Fraction(s)|)
  }

  /** The radix of a NonDecimalIntegerLiteral whose prefix letter is `c`, or 0. */
  function RadixOf(c: char): nat {
    if c == 'x' || c == 'X' then 16
    else if c == 'o' || c == 'O' then 8
    else if c == 'b' || c == 'B' then 2
    else 0
  }

  function Negate(n: JsNumber): JsNumber {
    match n
    case Finite(x) => Finite(-x)
    case PosInf => NegInf
    case NegInf => PosInf
    case NaN => NaN
  }

  /** An unsigned StrDecimalLiteral that must span all of `u`. */
  function WholeMagnitude(u: string): JsNumber {
    if u == "Infinity" then PosInf
    else match ScanDecimal(u)
      case Some(scan) => if scan.end == |u| then Finite(scan.value) else NaN
      case None => NaN
  }

  /** The longest prefix of `u` that is an unsigned StrDecimalLiteral. */
  function PrefixMagnitude(u: string): JsNumber {
    if "Infinity" <= u then PosInf
    else match ScanDecimal(u)
      case Some(scan) => Finite(scan.value)
      case None => NaN
  }

  /** A NonDecimalIntegerLiteral begins `t`: `0x`, `0o` or `0b` in either case. */
  predicate HasRadixPrefix(t: string) {
    |t| >= 2 && t[0] == '0' && RadixOf(t[1]) > 0
  }

  predicate AllDigitsIn(d: string, base: nat) {
    forall k :: 0 <= k < |d| ==> IsDigitIn(d[k], base)
  }

  /** The value of a whole NonDecimalIntegerLiteral, NaN when its digits are missing or out of range. */
  function RadixValue(t: string): JsNumber
    requires HasRadixPrefix(t)
  {
    if |t| > 2 && AllDigitsIn(t[2..], RadixOf(t[1])) then Finite(DigitsValue(t[2..], RadixOf(t[1])) as real)
    else NaN
  }

  /** `t` without its leading sign, if it has one. */
  function Unsigned(t: string): string {
    if t != [] && (t[0] == '+' || t[0] == '-') then t[1..] else t
  }

  function ApplySign(t: string, magnitude: JsNumber): JsNumber {
    if t != [] && t[0] == '-' then Negate(magnitude) else magnitude
  }

  /**
   * `Number(s)`: the whole string, less surrounding white space, must be a
   * StrNumericLiteral; an empty or blank string is 0, anything else NaN.
   */
  function StringToNumber(s: string): JsNumber {
    var t := Trim(s);
    if t == "" then Finite(0.0)
    else if HasRadixPrefix(t) then RadixValue(t)
    else ApplySign(t, WholeMagnitude(Unsigned(t)))
  }

  /**
   * `parseFloat(s)`: leading white space is skipped, then the longest prefix
   * that is a StrDecimalLiteral is converted; NaN when there is none.
   */
  function ParseFloat(s: string): JsNumber {
    var t := TrimStart(s);
    ApplySign(t, PrefixMagnitude(Unsigned(t)))
  }
}

/** Facts about the two conversions. */
module NumericStringFacts {
  import opened Wrappers
  import opened JsNumbers
  import opened NumericStrings

  /** The shortest decimal spelling of a natural number. */
  function DecimalString(n: nat): (s: string)
    decreases n
  {
    if n < 10 then ['0' + (n as char)] else DecimalString(n / 10) + ['0' + ((n % 10) as char)]
  }

  lemma {:induction false} DecimalStringShape(n: nat)
    ensures DecimalString(n) != []
    ensures forall k :: 0 <= k < |DecimalString(n)| ==> IsDecimalDigit(DecimalString(n)[k])
    ensures DigitsValue(DecimalString(n), 10) == n
    ensures DecimalString(n)[0] == '0' ==> n == 0
    decreases n
  {
    var s := DecimalString(n);
    if n >= 10 {
      DecimalStringShape(n / 10);
      assert s[..|s| - 1] == DecimalString(n / 10);
    }
  }

  lemma {:induction false} TrimStartOfBlank(s: string)
    requires forall k :: 0 <= k < |s| ==> IsStrWhiteSpace(s[k])
    ensures TrimStart(s) == ""
  {
    if s != [] {
      TrimStartOfBlank(s[1..]);
    }
  }

  /** TrimEnd removes a suffix made of white space only. */
  lemma {:induction false} TrimEndSplit(s: string)
    ensures TrimEnd(s) <= s
    ensures forall k :: |TrimEnd(s)| <= k < |s| ==> IsStrWhiteSpace(s[k])
  {
    if s != [] && IsStrWhiteSpace(s[|s| - 1]) {
      TrimEndSplit(s[..|s| - 1]);
    }
  }

  /**
   * Number("") and Number of any blank string are 0, whereas parseFloat of
   * the same strings is NaN.
   */
  lemma BlankStrings(s: string)
    requires forall k :: 0 <= k < |s| ==> IsStrWhiteSpace(s[k])
    ensures StringToNumber(s) == Finite(0.0)
    ensures ParseFloat(s) == NaN
  {
    TrimStartOfBlank(s);
  }

  /** A plain digit string is a literal whose value is the digits' value. */
  lemma DigitStringMagnitude(d: string)
    requires d != [] && forall k :: 0 <= k < |d| ==> IsDecimalDigit(d[k])
    ensures WholeMagnitude(d) == Finite(DigitsValue(d, 10) as real)
    ensures PrefixMagnitude(d) == Finite(DigitsValue(d, 10) as real)
  {
    assert IsDecimalDigit(d[0]);
    assert IntegerEnd(d) == |d|;
    assert Fraction(d) == "";
    assert d[..|d|] + "" == d;
  }

  /**
   * Number and parseFloat read any nonempty string of decimal digits, leading
   * zeros included, as the digits' value.
   */
  lemma DigitStringRoundTrip(d: string)
    requires d != [] && forall k :: 0 <= k < |d| ==> IsDecimalDigit(d[k])
    ensures StringToNumber(d) == Finite(DigitsValue(d, 10) as real)
    ensures ParseFloat(d) == Finite(DigitsValue(d, 10) as real)
  {
    assert Trim(d) == d by {
      assert IsDecimalDigit(d[0]) && IsDecimalDigit(d[|d| - 1]);
      assert TrimStart(d) == d;
    }
    assert !HasRadixPrefix(d) by {
      if |d| >= 2 {
        assert IsDecimalDigit(d[1]);
        assert RadixOf(d[1]) == 0;
      }
    }
    assert Unsigned(d) == d by {
      assert IsDecimalDigit(d[0]);
    }
    DigitStringMagnitude(d);
  }

  /** Number and parseFloat read back the decimal spelling of every natural number. */
  lemma DecimalStringRoundTrip(n: nat)
    ensures StringToNumber(DecimalString(n)) == Finite(n as real)
    ensures ParseFloat(DecimalString(n)) == Finite(n as real)
  {
    DecimalStringShape(n);
    DigitStringRoundTrip(DecimalString(n));
  }

  /**
   * A string whose first significant character can start no numeric literal
   * (a letter other than the `I` of `Infinity`, say) converts to NaN.
   */
  lemma NonNumericIsNaN(s: string)
    requires Trim(s) != ""
    requires var c := Trim(s)[0]; !IsDecimalDigit(c) && c != '.' && c != '+' && c != '-' && c != 'I'
    ensures StringToNumber(s) == NaN
  {
    var t := Trim(s);
    assert DigitsEnd(t, 0) == 0;
  }

  predicate MayContinueLiteral(c: char) {
    IsDecimalDigit(c) || c == '.' || c == 'e' || c == 'E' || c == '+' || c == '-'
  }

  lemma {:induction false} DigitsEndExtension(s: string, w: string, i: nat)
    requires i <= |s|
    requires w == [] || !IsDecimalDigit(w[0])
    ensures DigitsEnd(s + w, i) == DigitsEnd(s, i)
    decreases |s| - i
  {
    if i < |s| {
      assert (s + w)[i] == s[i];
      if IsDecimalDigit(s[i]) {
        DigitsEndExtension(s, w, i + 1);
      }
    } else if w != [] {
      assert (s + w)[i] == w[0];
    }
  }

  lemma ExponentExtension(s: string, w: string, j: nat)
    requires j <= |s|
    requires w == [] || !MayContinueLiteral(w[0])
    ensures Exponent(s + w, j) == Exponent(s, j)
  {
    var sw := s + w;
    if j < |s| {
      assert sw[j] == s[j];
      if j + 1 < |s| {
        assert sw[j + 1] == s[j + 1];
        var signed := s[j + 1] == '+' || s[j + 1] == '-';
        var k := if signed then j + 2 else j + 1;
        DigitsEndExtension(s, w, k);
        SliceOfConcat(s, w, k, DigitsEnd(s, k));
      } else {
        DigitsEndExtension(s, w, j + 1);
        if w != [] {
          assert sw[j + 1] == w[0];
        }
      }
    } else if w != [] {
      assert sw[j] == w[0];
    }
  }

  lemma SliceOfConcat(s: string, w: string, a: nat, b: nat)
    requires a <= b <= |s|
    ensures (s + w)[a..b] == s[a..b]
  {
  }

  lemma PointExtension(s: string, w: string)
    requires w == [] || !MayContinueLiteral(w[0])
    ensures IntegerEnd(s + w) == IntegerEnd(s)
    ensures HasPoint(s + w) == HasPoint(s)
  {
    DigitsEndExtension(s, w, 0);
    var i := IntegerEnd(s);
    if i < |s| {
      assert (s + w)[i] == s[i];
    } else if w != [] {
      assert (s + w)[i] == w[0];
    }
  }

  lemma MantissaExtension(s: string, w: string)
    requires w == [] || !MayContinueLiteral(w[0])
    ensures MantissaEnd(s + w) == MantissaEnd(s)
    ensures Fraction(s + w) == Fraction(s)
    ensures (s + w)[..IntegerEnd(s + w)] == s[..IntegerEnd(s)]
  {
    PointExtension(s, w);
    if HasPoint(s) {
      DigitsEndExtension(s, w, IntegerEnd(s) + 1);
      SliceOfConcat(s, w, IntegerEnd(s) + 1, MantissaEnd(s));
    }
    SliceOfConcat(s, w, 0, IntegerEnd(s));
  }

  /** Characters after a literal that cannot continue it do not change what the scanner finds. */
  lemma ScanExtension(s: string, w: string)
    requires w == [] || !MayContinueLiteral(w[0])
    ensures ScanDecimal(s + w) == ScanDecimal(s)
  {
    PointExtension(s, w);
    MantissaExtension(s, w);
    ExponentExtension(s, w, MantissaEnd(s));
    assert LiteralValue(s + w) == LiteralValue(s);
  }

  /** A string the scanner accepts starts with a digit or a decimal point. */
  lemma ScanStart(u: string)
    requires ScanDecimal(u).Some?
    ensures IsDecimalDigit(u[0]) || u[0] == '.'
  {
  }

  /**
   * On every string that Number accepts as a decimal literal, parseFloat
   * agrees with it: trailing white space, which Number ignores, is where
   * parseFloat's longest prefix stops.
   */
  lemma ParseFloatAgreesWithNumber(s: string)
    requires Trim(s) != "" && !HasRadixPrefix(Trim(s))
    requires StringToNumber(s) != NaN
    ensures ParseFloat(s) == StringToNumber(s)
  {
    var ts := TrimStart(s);
    var t := Trim(s);
    TrimEndSplit(ts);
    var w := ts[|t|..];
    assert ts == t + w;
    assert w == [] || !MayContinueLiteral(w[0]) by {
      if w != [] {
        assert IsStrWhiteSpace(w[0]);
      }
    }
    SignOfConcat(t, w);
    MagnitudeExtension(Unsigned(t), w);
  }

  lemma SignOfConcat(t: string, w: string)
    requires t != []
    ensures Unsigned(t + w) == Unsigned(t) + w
    ensures forall m :: ApplySign(t + w, m) == ApplySign(t, m)
  {
    assert (t + w)[0] == t[0];
    if t[0] == '+' || t[0] == '-' {
      assert (t + w)[1..] == t[1..] + w;
    }
  }

  /** Where Number accepts an unsigned literal, parseFloat finds the same one before trailing white space. */
  lemma MagnitudeExtension(u: string, w: string)
    requires WholeMagnitude(u) != NaN
    requires w == [] || !MayContinueLiteral(w[0])
    ensures PrefixMagnitude(u + w) == WholeMagnitude(u)
  {
    if u != "Infinity" {
      ScanStart(u);
      ScanExtension(u, w);
      assert (u + w)[0] == u[0];
    }
  }
}
