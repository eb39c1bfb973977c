/** Colour helpers of src/colors.rs: an RGB triple as `#RRGGBB` text and
    back, and darker or lighter versions of a colour.

    A Rust `&str` is UTF-8: `len()` counts bytes and `&hex[a..b]` panics
    when `a` or `b` falls inside a multi-byte character. Strings here are
    sequences of Unicode scalar values, so both are modelled through the
    UTF-8 width of each character, and the panic is the outcome `Panic`. */
module Colors {
  import opened Text

  newtype u8 = x: int | 0 <= x < 256

  /** The `&'static str` errors of src/colors.rs, one constructor per text. */
  datatype ColorError = FormatError | RedError | GreenError | BlueError | FractionError
  {
    function Message(): string {
      match this
      case FormatError => "Invalid hex color format"
      case RedError => "Invalid red component"
      case GreenError => "Invalid green component"
      case BlueError => "Invalid blue component"
      case FractionError => "Fraction must be between 0.0 and 1.0"
    }
  }

  /** What a call returns: `Ok`, Rust's `Err`, or a panic. */
  datatype Outcome<T> = Ok(value: T) | Err(error: ColorError) | Panic

  /** `char::len_utf8`. */
  function Utf8Width(c: char): (w: nat)
    ensures 1 <= w <= 4
    ensures w == 1 <==> c as int < 0x80
  {
    if c as int < 0x80 then 1
    else if c as int < 0x800 then 2
    else if c as int < 0x1_0000 then 3
    else 4
  }

  /** `str::len()`: the length of `s` in UTF-8 bytes. */
  function ByteLen(s: string): nat
  {
    if s == [] then 0 else Utf8Width(s[0]) + ByteLen(s[1..])
  }

  predicate IsAscii(s: string) {
    forall i :: 0 <= i < |s| ==> s[i] as int < 0x80
  }

  lemma {:induction false} AsciiByteLen(s: string)
    requires IsAscii(s)
    ensures ByteLen(s) == |s|
  {
    if s != [] {
      AsciiByteLen(s[1..]);
    }
  }

  lemma {:induction false} ByteLenPrefixMonotone(s: string, i: nat, j: nat)
    requires i <= j <= |s|
    ensures ByteLen(s[..i]) <= ByteLen(s[..j])
    ensures i < j ==> ByteLen(s[..i]) < ByteLen(s[..j])
  {
    if i > 0 {
      assert s[..i][1..] == s[1..][..i - 1];
      assert s[..j][1..] == s[1..][..j - 1];
      ByteLenPrefixMonotone(s[1..], i - 1, j - 1);
    } else if j > 0 {
      assert s[..j][1..] == s[1..][..j - 1];
    }
  }

  /** The index of the character that starts at byte offset `b` of `s`, or
      `None` when `b` is not a character boundary (where `&s[..b]` panics). */
  function CharIndexAt(s: string, b: nat): (r: Option<nat>)
    ensures r.Some? ==> r.value <= |s| && ByteLen(s[..r.value]) == b
    ensures r.None? ==> forall i :: 0 <= i <= |s| ==> ByteLen(s[..i]) != b
  {
    if b == 0 then
      assert s[..0] == [];
      Some(0)
    else if s == [] then
      assert forall i :: 0 <= i <= |s| ==> s[..i] == [];
      None
    else if Utf8Width(s[0]) > b then
      assert forall i :: 1 <= i <= |s| ==> s[..i][1..] == s[1..][..i - 1];
      None
    else
      match CharIndexAt(s[1..], b - Utf8Width(s[0]))
      case Some(i) =>
        assert s[..i + 1][1..] == s[1..][..i];
        Some(i + 1)
      case None =>
        assert forall i :: 1 <= i <= |s| ==> s[..i][1..] == s[1..][..i - 1];
        None
  }

  /** `u8::from_str_radix(t, 16)`: an optional leading `+`, then hexadecimal
      digits of either case whose value fits in a byte. */
  function FromStrRadix16(t: string): (r: Option<u8>)
  {
    if t == [] then None
    else if (t[0] == '+' || t[0] == '-') && |t| == 1 then None
    else
      var digits := if t[0] == '+' then t[1..] else t;
      if forall i :: 0 <= i < |digits| ==> IsHexDigit(digits[i]) then
        var v := HexValue(digits);
        if v < 256 then Some(v as u8) else None
      else None
  }

  /** `rgb_to_hex`: `#` and two upper-case hexadecimal digits per
      component, in the order red, green, blue. */
  function RgbToHex(r: u8, g: u8, b: u8): (s: string)
    ensures |s| == 7 && s[0] == '#'
    ensures forall i :: 1 <= i < 7 ==> IsUpperHexDigit(s[i])
    ensures s[1..3] == Hex02(r as nat) && s[3..5] == Hex02(g as nat) && s[5..7] == Hex02(b as nat)
    ensures HexValue(s[1..3]) == r as nat
    ensures HexValue(s[3..5]) == g as nat
    ensures HexValue(s[5..7]) == b as nat
  {
    var s := "#" + Hex02(r as nat) + Hex02(g as nat) + Hex02(b as nat);
    assert s[1..3] == Hex02(r as nat) && s[3..5] == Hex02(g as nat) && s[5..7] == Hex02(b as nat);
    s
  }

  /** `&s[a..b]` for byte offsets `a <= b`: `None` where Rust panics because
      an offset is not a character boundary. */
  function SliceBytes(s: string, a: nat, b: nat): (r: Option<string>)
    requires a <= b
    ensures r.Some? <==> CharIndexAt(s, a).Some? && CharIndexAt(s, b).Some?
    ensures r.Some? ==> CharIndexAt(s, a).value <= CharIndexAt(s, b).value
    ensures r.Some? ==> r.value == s[CharIndexAt(s, a).value..CharIndexAt(s, b).value]
  {
    match (CharIndexAt(s, a), CharIndexAt(s, b))
    case (Some(i), Some(j)) =>
      if j < i then ByteLenPrefixMonotone(s, j, i); None else Some(s[i..j])
    case _ => None
  }

  /** One `let c = u8::from_str_radix(&hex[a..b], 16).map_err(|_| error)?;`. */
  function Component(hex: string, a: nat, b: nat, error: ColorError): (r: Outcome<u8>)
    requires a <= b
  {
    match SliceBytes(hex, a, b)
    case None => Panic
    case Some(t) =>
      match FromStrRadix16(t)
      case None => Err(error)
      case Some(v) => Ok(v)
  }

  /** `hex_to_rgb`. The length and the leading `#` are checked first; then
      the byte slices [1..3], [3..5] and [5..7] are parsed in turn, and the
      first that fails decides the outcome. */
  function HexToRgb(hex: string): (r: Outcome<(u8, u8, u8)>)
  {
    if ByteLen(hex) != 7 || |hex| == 0 || hex[0] != '#' then Err(FormatError)
    else
      match Component(hex, 1, 3, RedError)
      case Err(e) => Err(e)
      case Panic => Panic
      case Ok(red) =>
        match Component(hex, 3, 5, GreenError)
        case Err(e) => Err(e)
        case Panic => Panic
        case Ok(green) =>
          match Component(hex, 5, 7, BlueError)
          case Err(e) => Err(e)
          case Panic => Panic
          case Ok(blue) => Ok((red, green, blue))
  }

  /** The length check: the format error is returned exactly when the text
      is not 7 bytes long or does not start with `#`. */
  lemma FormatErrorExactly(hex: string)
    ensures HexToRgb(hex) == Err(FormatError) <==> (ByteLen(hex) != 7 || |hex| == 0 || hex[0] != '#')
  {
  }

  lemma AsciiCharIndex(hex: string, b: nat)
    requires IsAscii(hex) && b <= |hex|
    ensures CharIndexAt(hex, b) == Some(b)
  {
    AsciiByteLen(hex[..b]);
    var i := CharIndexAt(hex, b).value;
    if i < b { ByteLenPrefixMonotone(hex, i, b); } else if i > b { ByteLenPrefixMonotone(hex, b, i); }
  }

  /** On ASCII text a byte slice is the character slice. */
  lemma AsciiSlice(hex: string, a: nat, b: nat)
    requires IsAscii(hex) && a <= b <= |hex|
    ensures SliceBytes(hex, a, b) == Some(hex[a..b])
  {
    AsciiCharIndex(hex, a);
    AsciiCharIndex(hex, b);
  }

  /** On ASCII text of 7 characters starting with `#`, `hex_to_rgb` never
      panics; it parses the fixed slices [1..3], [3..5], [5..7] and reports
      the first failing component, red before green before blue. */
  lemma {:induction false} AsciiSlicesInOrder(hex: string)
    requires IsAscii(hex) && |hex| == 7 && hex[0] == '#'
    ensures HexToRgb(hex) != Panic
    ensures FromStrRadix16(hex[1..3]).None? ==> HexToRgb(hex) == Err(RedError)
    ensures FromStrRadix16(hex[1..3]).Some? && FromStrRadix16(hex[3..5]).None? ==> HexToRgb(hex) == Err(GreenError)
    ensures FromStrRadix16(hex[1..3]).Some? && FromStrRadix16(hex[3..5]).Some? && FromStrRadix16(hex[5..7]).None?
      ==> HexToRgb(hex) == Err(BlueError)
    ensures HexToRgb(hex).Ok? <==>
      FromStrRadix16(hex[1..3]).Some? && FromStrRadix16(hex[3..5]).Some? && FromStrRadix16(hex[5..7]).Some?
    ensures HexToRgb(hex).Ok? ==>
      HexToRgb(hex).value == (FromStrRadix16(hex[1..3]).value, FromStrRadix16(hex[3..5]).value, FromStrRadix16(hex[5..7]).value)
  {
    AsciiByteLen(hex);
    AsciiSlice(hex, 1, 3);
    AsciiSlice(hex, 3, 5);
    AsciiSlice(hex, 5, 7);
  }

  lemma RgbToHexIsAscii(r: u8, g: u8, b: u8)
    ensures IsAscii(RgbToHex(r, g, b))
  {
  }

  lemma TwoDigitParse(t: string)
    requires |t| == 2 && IsHexDigit(t[0]) && IsHexDigit(t[1])
    ensures FromStrRadix16(t).Some?
    ensures FromStrRadix16(t).value as nat == DigitValue(t[0]).value * 16 + DigitValue(t[1]).value
  {
    HexValueOfTwo(t);
  }

  /** Round trip: every byte triple written by `rgb_to_hex` is read back by
      `hex_to_rgb`. */
  lemma {:induction false} RgbRoundTrip(r: u8, g: u8, b: u8)
    ensures HexToRgb(RgbToHex(r, g, b)) == Ok((r, g, b))
  {
    var s := RgbToHex(r, g, b);
    RgbToHexIsAscii(r, g, b);
    AsciiSlicesInOrder(s);
    TwoDigitParse(s[1..3]);
    TwoDigitParse(s[3..5]);
    TwoDigitParse(s[5..7]);
    HexValueOfTwo(s[1..3]);
    HexValueOfTwo(s[3..5]);
    HexValueOfTwo(s[5..7]);
  }

  function UpperChar(c: char): char {
    if 'a' <= c <= 'z' then (c as int - 32) as char else c
  }

  function Uppercase(s: string): (u: string)
    ensures |u| == |s| && forall i :: 0 <= i < |s| ==> u[i] == UpperChar(s[i])
  {
    seq(|s|, i requires 0 <= i < |s| => UpperChar(s[i]))
  }

  lemma SameDigitUpper(c: char, d: char)
    requires IsHexDigit(c) && IsUpperHexDigit(d) && DigitValue(c) == DigitValue(d)
    ensures d == UpperChar(c)
  {
  }

  /** A pair of hexadecimal digits of either case is parsed to the byte
      whose `{:02X}` text is the pair upper-cased. */
  lemma UpperPair(t: string)
    requires |t| == 2 && IsHexDigit(t[0]) && IsHexDigit(t[1])
    ensures FromStrRadix16(t).Some?
    ensures Hex02(FromStrRadix16(t).value as nat) == Uppercase(t)
  {
    TwoDigitParse(t);
    var v := FromStrRadix16(t).value as nat;
    var s := Hex02(v);
    assert |s| == 2 && IsUpperHexDigit(s[0]) && IsUpperHexDigit(s[1]);
    HexValueOfTwo(s);
    var a, b := DigitValue(t[0]).value, DigitValue(t[1]).value;
    var c, d := DigitValue(s[0]).value, DigitValue(s[1]).value;
    SplitTwoDigits(a, b, c, d);
    SameDigitUpper(t[0], s[0]);
    SameDigitUpper(t[1], s[1]);
  }

  lemma SplitTwoDigits(a: nat, b: nat, c: nat, d: nat)
    requires a < 16 && b < 16 && c < 16 && d < 16 && a * 16 + b == c * 16 + d
    ensures a == c && b == d
  {
  }

  /** `#` and six hexadecimal digits parse to the values of the three pairs. */
  lemma DigitsParse(hex: string)
    requires |hex| == 7 && hex[0] == '#'
    requires forall i :: 1 <= i < 7 ==> IsHexDigit(hex[i])
    ensures FromStrRadix16(hex[1..3]).Some? && FromStrRadix16(hex[3..5]).Some? && FromStrRadix16(hex[5..7]).Some?
    ensures HexToRgb(hex)
      == Ok((FromStrRadix16(hex[1..3]).value, FromStrRadix16(hex[3..5]).value, FromStrRadix16(hex[5..7]).value))
  {
    assert IsAscii(hex);
    AsciiSlicesInOrder(hex);
    TwoDigitParse(hex[1..3]);
    TwoDigitParse(hex[3..5]);
    TwoDigitParse(hex[5..7]);
  }

  /** Lower-case digits are accepted and upper-case ones are written: for
      `#` followed by six hexadecimal digits, writing back the parsed triple
      gives the input upper-cased. */
  lemma ParseThenWriteUppercases(hex: string)
    requires |hex| == 7 && hex[0] == '#'
    requires forall i :: 1 <= i < 7 ==> IsHexDigit(hex[i])
    ensures HexToRgb(hex).Ok?
    ensures RgbToHex(HexToRgb(hex).value.0, HexToRgb(hex).value.1, HexToRgb(hex).value.2) == Uppercase(hex)
  {
    DigitsParse(hex);
    UpperPair(hex[1..3]);
    UpperPair(hex[3..5]);
    UpperPair(hex[5..7]);
    WriteUppercasePairs(hex, FromStrRadix16(hex[1..3]).value, FromStrRadix16(hex[3..5]).value,
      FromStrRadix16(hex[5..7]).value);
  }

  lemma WriteUppercasePairs(hex: string, r: u8, g: u8, b: u8)
    requires |hex| == 7 && hex[0] == '#'
    requires Hex02(r as nat) == Uppercase(hex[1..3])
    requires Hex02(g as nat) == Uppercase(hex[3..5])
    requires Hex02(b as nat) == Uppercase(hex[5..7])
    ensures RgbToHex(r, g, b) == Uppercase(hex)
  {
    var s := RgbToHex(r, g, b);
    var u := Uppercase(hex);
    UppercaseSlice(hex, 1, 3);
    UppercaseSlice(hex, 3, 5);
    UppercaseSlice(hex, 5, 7);
    forall i | 0 <= i < 7
      ensures s[i] == u[i]
    {
      if 1 <= i < 3 {
        assert s[i] == s[1..3][i - 1] && u[i] == u[1..3][i - 1];
      } else if 3 <= i < 5 {
        assert s[i] == s[3..5][i - 3] && u[i] == u[3..5][i - 3];
      } else if 5 <= i {
        assert s[i] == s[5..7][i - 5] && u[i] == u[5..7][i - 5];
      }
    }
  }

  lemma UppercaseSlice(s: string, i: nat, j: nat)
    requires i <= j <= |s|
    ensures Uppercase(s)[i..j] == Uppercase(s[i..j])
  {
    var u, w := Uppercase(s)[i..j], Uppercase(s[i..j]);
    assert forall k :: 0 <= k < j - i ==> u[k] == w[k];
  }

  lemma PlusDigit()
    ensures FromStrRadix16("+F") == Some(15)
  {
    assert "+F"[1..] == "F";
    assert HexValue("F") == 15 by { assert "F"[..0] == []; }
  }

  /** `u8::from_str_radix` takes a leading `+`, so "#+F+F+F" is accepted. */
  lemma PlusSignAccepted()
    ensures HexToRgb("#+F+F+F") == Ok((15, 15, 15))
  {
    var s := "#+F+F+F";
    assert IsAscii(s);
    AsciiSlicesInOrder(s);
    assert s[1..3] == s[3..5] == s[5..7] == "+F";
    PlusDigit();
  }

  /** A slice bound inside a two-byte character panics: in "#1é234" byte 3
      falls inside 'é'. */
  lemma SliceInsideCharacterPanics()
    ensures HexToRgb("#1é234") == Panic
  {
    var s := "#1é234";
    assert ByteLen(s) == 7;
    assert CharIndexAt(s, 3).None? by {
      assert CharIndexAt(s[1..], 2) == None by {
        assert CharIndexAt(s[2..], 1) == None;
      }
    }
  }

  /** `(c as f32 * factor).clamp(0.0, 255.0) as u8`, with the float product
      taken as a real and the truncating cast as the floor. */
  function Scale(c: u8, factor: real): (s: u8)
    requires factor >= 0.0
  {
    var p := c as real * factor;
    var clamped := if p < 0.0 then 0.0 else if p > 255.0 then 255.0 else p;
    clamped.Floor as u8
  }

  /** `darker`: scale every component by `1 - fraction`. */
  function Darker(colorHex: string, fraction: real): (r: Outcome<string>)
  {
    if fraction < 0.0 || fraction > 1.0 then Err(FractionError)
    else
      match HexToRgb(colorHex)
      case Err(e) => Err(e)
      case Panic => Panic
      case Ok((r, g, b)) =>
        Ok(RgbToHex(Scale(r, 1.0 - fraction), Scale(g, 1.0 - fraction), Scale(b, 1.0 - fraction)))
  }

  /** `lighter`: scale every component by `1 + fraction`, clamped at 255. */
  function Lighter(colorHex: string, fraction: real): (r: Outcome<string>)
  {
    if fraction < 0.0 || fraction > 1.0 then Err(FractionError)
    else
      match HexToRgb(colorHex)
      case Err(e) => Err(e)
      case Panic => Panic
      case Ok((r, g, b)) =>
        Ok(RgbToHex(Scale(r, 1.0 + fraction), Scale(g, 1.0 + fraction), Scale(b, 1.0 + fraction)))
  }

  /** The fraction is checked before the colour is looked at, so its error
      wins over a malformed colour; with a valid fraction a malformed colour
      yields `hex_to_rgb`'s outcome unchanged. */
  lemma ErrorPrecedence(colorHex: string, fraction: real)
    ensures fraction < 0.0 || fraction > 1.0 ==>
      Darker(colorHex, fraction) == Err(FractionError) && Lighter(colorHex, fraction) == Err(FractionError)
    ensures 0.0 <= fraction <= 1.0 && HexToRgb(colorHex).Err? ==>
      Darker(colorHex, fraction) == Err(HexToRgb(colorHex).error)
      && Lighter(colorHex, fraction) == Err(HexToRgb(colorHex).error)
    ensures 0.0 <= fraction <= 1.0 && HexToRgb(colorHex).Panic? ==>
      Darker(colorHex, fraction).Panic? && Lighter(colorHex, fraction).Panic?
  {
  }

  /** `darker` succeeds exactly for a fraction in [0, 1] and a parsable
      colour, and then writes the scaled triple. */
  lemma DarkerOk(colorHex: string, fraction: real)
    ensures Darker(colorHex, fraction).Ok? <==> 0.0 <= fraction <= 1.0 && HexToRgb(colorHex).Ok?
    ensures Darker(colorHex, fraction).Ok? ==>
      var c := HexToRgb(colorHex).value;
      Darker(colorHex, fraction).value
        == RgbToHex(Scale(c.0, 1.0 - fraction), Scale(c.1, 1.0 - fraction), Scale(c.2, 1.0 - fraction))
  {
  }

  /** `lighter` succeeds exactly for a fraction in [0, 1] and a parsable
      colour, and then writes the scaled triple. */
  lemma LighterOk(colorHex: string, fraction: real)
    ensures Lighter(colorHex, fraction).Ok? <==> 0.0 <= fraction <= 1.0 && HexToRgb(colorHex).Ok?
    ensures Lighter(colorHex, fraction).Ok? ==>
      var c := HexToRgb(colorHex).value;
      Lighter(colorHex, fraction).value
        == RgbToHex(Scale(c.0, 1.0 + fraction), Scale(c.1, 1.0 + fraction), Scale(c.2, 1.0 + fraction))
  {
  }

  lemma ScaleDown(c: u8, factor: real)
    requires 0.0 <= factor <= 1.0
    ensures Scale(c, factor) <= c
  {
    var p := c as real * factor;
    assert p <= c as real;
  }

  lemma ScaleUp(c: u8, factor: real)
    requires factor >= 1.0
    ensures Scale(c, factor) >= c
    ensures c as real * factor >= 255.0 ==> Scale(c, factor) == 255
  {
    var p := c as real * factor;
    assert c as real * (factor - 1.0) >= 0.0;
    assert p >= c as real;
  }

  /** What `darker` writes reads back as the scaled triple. */
  lemma DarkerReadBack(colorHex: string, fraction: real, c: (u8, u8, u8))
    requires HexToRgb(colorHex) == Ok(c) && 0.0 <= fraction <= 1.0
    ensures Darker(colorHex, fraction).Ok?
    ensures HexToRgb(Darker(colorHex, fraction).value)
      == Ok((Scale(c.0, 1.0 - fraction), Scale(c.1, 1.0 - fraction), Scale(c.2, 1.0 - fraction)))
  {
    DarkerOk(colorHex, fraction);
    RgbRoundTrip(Scale(c.0, 1.0 - fraction), Scale(c.1, 1.0 - fraction), Scale(c.2, 1.0 - fraction));
  }

  /** `darker` of a valid colour by a valid fraction succeeds and never
      increases a component. */
  lemma DarkerNeverIncreases(colorHex: string, fraction: real, c: (u8, u8, u8))
    requires HexToRgb(colorHex) == Ok(c) && 0.0 <= fraction <= 1.0
    ensures Darker(colorHex, fraction).Ok?
    ensures var d := HexToRgb(Darker(colorHex, fraction).value);
      d.Ok? && d.value.0 <= c.0 && d.value.1 <= c.1 && d.value.2 <= c.2
  {
    DarkerReadBack(colorHex, fraction, c);
    ScaledDownTriple(c, HexToRgb(Darker(colorHex, fraction).value).value, 1.0 - fraction);
  }

  lemma ScaledDownTriple(c: (u8, u8, u8), d: (u8, u8, u8), factor: real)
    requires 0.0 <= factor <= 1.0
    requires d == (Scale(c.0, factor), Scale(c.1, factor), Scale(c.2, factor))
    ensures d.0 <= c.0 && d.1 <= c.1 && d.2 <= c.2
  {
    ScaleDown(c.0, factor);
    ScaleDown(c.1, factor);
    ScaleDown(c.2, factor);
  }

  /** What `lighter` writes reads back as the scaled triple. */
  lemma LighterReadBack(colorHex: string, fraction: real, c: (u8, u8, u8))
    requires HexToRgb(colorHex) == Ok(c) && 0.0 <= fraction <= 1.0
    ensures Lighter(colorHex, fraction).Ok?
    ensures HexToRgb(Lighter(colorHex, fraction).value)
      == Ok((Scale(c.0, 1.0 + fraction), Scale(c.1, 1.0 + fraction), Scale(c.2, 1.0 + fraction)))
  {
    LighterOk(colorHex, fraction);
    RgbRoundTrip(Scale(c.0, 1.0 + fraction), Scale(c.1, 1.0 + fraction), Scale(c.2, 1.0 + fraction));
  }

  lemma ClampedTriple(c: (u8, u8, u8), d: (u8, u8, u8), factor: real)
    requires factor >= 1.0
    requires d == (Scale(c.0, factor), Scale(c.1, factor), Scale(c.2, factor))
    ensures c.0 <= d.0 && c.1 <= d.1 && c.2 <= d.2
    ensures c.0 as real * factor >= 255.0 ==> d.0 == 255
    ensures c.1 as real * factor >= 255.0 ==> d.1 == 255
    ensures c.2 as real * factor >= 255.0 ==> d.2 == 255
  {
    ScaleUp(c.0, factor);
    ScaleUp(c.1, factor);
    ScaleUp(c.2, factor);
  }

  /** `lighter` of a valid colour by a valid fraction succeeds, never
      decreases a component, and a component whose scaled value reaches 255
      becomes 255. */
  lemma LighterNeverDecreases(colorHex: string, fraction: real, c: (u8, u8, u8))
    requires HexToRgb(colorHex) == Ok(c) && 0.0 <= fraction <= 1.0
    ensures Lighter(colorHex, fraction).Ok?
    ensures var d := HexToRgb(Lighter(colorHex, fraction).value);
      d.Ok? && c.0 <= d.value.0 && c.1 <= d.value.1 && c.2 <= d.value.2
      && (c.0 as real * (1.0 + fraction) >= 255.0 ==> d.value.0 == 255)
      && (c.1 as real * (1.0 + fraction) >= 255.0 ==> d.value.1 == 255)
      && (c.2 as real * (1.0 + fraction) >= 255.0 ==> d.value.2 == 255)
  {
    LighterReadBack(colorHex, fraction, c);
    ClampedTriple(c, HexToRgb(Lighter(colorHex, fraction).value).value, 1.0 + fraction);
  }
}
