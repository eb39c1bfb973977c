/** Text helpers shared by the renderers: Rust's `{:X}` and `{:02X}`
    hexadecimal formatting, `char::to_digit(16)`, the `{}` rendering of a
    number, and `str::lines().count()`. */
module Text {

  datatype Option<T> = None | Some(value: T)

  predicate IsHexDigit(c: char) {
    '0' <= c <= '9' || 'a' <= c <= 'f' || 'A' <= c <= 'F'
  }

  predicate IsUpperHexDigit(c: char)
    ensures IsUpperHexDigit(c) ==> IsHexDigit(c)
  {
    '0' <= c <= '9' || 'A' <= c <= 'F'
  }

  /** The digit `{:X}` writes for a value below 16. */
  function HexDigit(d: nat): (c: char)
    requires d < 16
    ensures IsUpperHexDigit(c)
  {
    if d < 10 then ('0' as int + d) as char else ('A' as int + d - 10) as char
  }

  /** `char::to_digit(16)`: ASCII digits and the letters a-f in either case. */
  function DigitValue(c: char): (v: Option<nat>)
    ensures v.Some? <==> IsHexDigit(c)
    ensures v.Some? ==> v.value < 16
  {
    if '0' <= c <= '9' then Some(c as int - '0' as int)
    else if 'a' <= c <= 'f' then Some(c as int - 'a' as int + 10)
    else if 'A' <= c <= 'F' then Some(c as int - 'A' as int + 10)
    else None
  }

  lemma DigitValueOfHexDigit(d: nat)
    requires d < 16
    ensures DigitValue(HexDigit(d)) == Some(d)
  {
  }

  /** `{:X}`: the shortest upper-case hexadecimal numeral of `n`. */
  function UpperHex(n: nat): (s: string)
    ensures forall i :: 0 <= i < |s| ==> IsUpperHexDigit(s[i])
    ensures n < 16 ==> |s| == 1
    ensures 16 <= n < 256 ==> |s| == 2
    ensures 256 <= n ==> |s| >= 3
  {
    if n < 16 then [HexDigit(n)] else UpperHex(n / 16) + [HexDigit(n % 16)]
  }

  /** The value of a numeral of hexadecimal digits, most significant first. */
  function HexValue(s: string): nat
    requires forall i :: 0 <= i < |s| ==> IsHexDigit(s[i])
  {
    if s == [] then 0 else HexValue(s[..|s| - 1]) * 16 + DigitValue(s[|s| - 1]).value
  }

  /** `{:X}` is read back by `HexValue`. */
  lemma {:induction false} UpperHexRoundTrip(n: nat)
    ensures HexValue(UpperHex(n)) == n
  {
    if n >= 16 {
      var s := UpperHex(n);
      assert s[..|s| - 1] == UpperHex(n / 16);
      UpperHexRoundTrip(n / 16);
      DigitValueOfHexDigit(n % 16);
    } else {
      DigitValueOfHexDigit(n);
    }
  }

  lemma HexValueOfTwo(s: string)
    requires |s| == 2 && IsHexDigit(s[0]) && IsHexDigit(s[1])
    ensures HexValue(s) == DigitValue(s[0]).value * 16 + DigitValue(s[1]).value
  {
    assert s[..|s| - 1] == s[..1];
    assert s[..1][..0] == [];
    assert HexValue(s[..1]) == DigitValue(s[0]).value;
  }

  /** `{:02X}`: the numeral of `n`, zero-padded on the left to at least two
      digits; it is read back by `HexValue`. */
  function Hex02(n: nat): (s: string)
    ensures |s| == (if n < 256 then 2 else |UpperHex(n)|)
    ensures forall i :: 0 <= i < |s| ==> IsUpperHexDigit(s[i])
    ensures forall i :: 0 <= i < |s| ==> IsHexDigit(s[i])
    ensures HexValue(s) == n
  {
    var h := UpperHex(n);
    UpperHexRoundTrip(n);
    if |h| < 2 then
      assert ("0" + h)[..1] == "0";
      "0" + h
    else
      h
  }

  function DecimalDigit(d: nat): (c: char)
    requires d < 10
    ensures '0' <= c <= '9'
  {
    ('0' as int + d) as char
  }

  /** `{}` of a natural number: its decimal numeral. */
  function Decimal(n: nat): (s: string)
    ensures |s| >= 1
    ensures forall i :: 0 <= i < |s| ==> '0' <= s[i] <= '9'
  {
    if n < 10 then [DecimalDigit(n)] else Decimal(n / 10) + [DecimalDigit(n % 10)]
  }

  predicate IsNumberChar(c: char) {
    '0' <= c <= '9' || c == '-' || c == '.'
  }

  /** Up to `k` decimal digits of a fraction in [0, 1), stopping once the rest is zero. */
  function FractionDigits(f: real, k: nat): (s: string)
    requires 0.0 <= f < 1.0
    ensures |s| <= k
    ensures forall i :: 0 <= i < |s| ==> '0' <= s[i] <= '9'
    ensures k > 0 && f != 0.0 ==> |s| >= 1
    decreases k
  {
    if k == 0 || f == 0.0 then ""
    else
      var d := (f * 10.0).Floor;
      [DecimalDigit(d)] + FractionDigits(f * 10.0 - d as real, k - 1)
  }

  /** `{}` of a non-negative number. */
  function FormatMagnitude(x: real): (s: string)
    requires x >= 0.0
    ensures |s| >= 1
    ensures forall i :: 0 <= i < |s| ==> IsNumberChar(s[i])
  {
    var n := x.Floor;
    if n as real == x then Decimal(n)
    else Decimal(n) + "." + FractionDigits(x - n as real, 6)
  }

  /** Rust's `{}` for an `f32`, on reals: an integral value is written
      without a fractional part (100.0 as "100"), any other value with a
      decimal point and at most six fractional digits. The result is made
      only of digits, '-' and '.'. */
  function FormatReal(x: real): (s: string)
    ensures |s| >= 1
    ensures forall i :: 0 <= i < |s| ==> IsNumberChar(s[i])
  {
    if x < 0.0 then "-" + FormatMagnitude(-x) else FormatMagnitude(x)
  }

  /** Integral values are written without a fractional part. */
  lemma FormatIntegers()
    ensures FormatReal(0.0) == "0" && FormatReal(1.0) == "1" && FormatReal(10.0) == "10"
    ensures FormatReal(50.0) == "50" && FormatReal(100.0) == "100"
    ensures FormatReal(200.0) == "200" && FormatReal(300.0) == "300"
    ensures FormatReal(-1.0) == "-1"
  {
  }

  /** `s` holds no line feed. */
  predicate NoNewline(s: string) {
    '\n' !in s
  }

  /** The number of line feeds in `s`. */
  function Newlines(s: string): nat
  {
    multiset(s)['\n']
  }

  lemma NewlinesAppend(a: string, b: string)
    ensures Newlines(a + b) == Newlines(a) + Newlines(b)
  {
  }

  lemma NoNewlineHasNone(s: string)
    requires NoNewline(s)
    ensures Newlines(s) == 0
  {
    assert '\n' !in s;
  }

  /** `str::lines().count()`: one line per line feed, plus a last line that
      has no line feed after it. */
  function LineCount(s: string): nat
  {
    if s == [] then 0
    else if s[|s| - 1] == '\n' then Newlines(s)
    else Newlines(s) + 1
  }

  /** A non-empty text without line feeds is one line. */
  lemma SingleLine(s: string)
    requires |s| > 0 && NoNewline(s)
    ensures LineCount(s) == 1
  {
    NoNewlineHasNone(s);
    assert s[|s| - 1] in s;
  }

  /** A formatted number is never split over lines. */
  lemma FormatRealNoNewline(x: real)
    ensures NoNewline(FormatReal(x))
  {
    var f := FormatReal(x);
    forall i | 0 <= i < |f|
      ensures f[i] != '\n'
    {
      assert IsNumberChar(f[i]);
    }
  }
}
