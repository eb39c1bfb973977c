/** The `Style` record of src/style.rs: six optional presentation
    attributes and a rotation angle, serialised as `key:value;` entries in
    a fixed key order, together with the `u16` variant of `rgb_to_hex`. */
module Styling {
  import opened Text
  import Colors

  newtype u16 = x: int | 0 <= x < 0x1_0000

  /** `style::rgb_to_hex`: `{:02X}` of each component after a `#`. A
      component above 255 takes more than two digits. */
  function RgbToHex(r: u16, g: u16, b: u16): (s: string)
    ensures |s| >= 7 && s[0] == '#'
    ensures forall i :: 1 <= i < |s| ==> IsUpperHexDigit(s[i])
    ensures |s| == 7 <==> r < 256 && g < 256 && b < 256
  {
    var s := "#" + Hex02(r as nat) + Hex02(g as nat) + Hex02(b as nat);
    assert forall i :: 1 <= i < |s| ==> s[i] in Hex02(r as nat) + Hex02(g as nat) + Hex02(b as nat);
    s
  }

  /** For byte-sized components the `u16` version writes what the `u8`
      version of src/colors.rs writes, so `hex_to_rgb` reads it back. */
  lemma RgbToHexAgrees(r: u16, g: u16, b: u16)
    requires r < 256 && g < 256 && b < 256
    ensures RgbToHex(r, g, b) == Colors.RgbToHex(r as int as Colors.u8, g as int as Colors.u8, b as int as Colors.u8)
    ensures Colors.HexToRgb(RgbToHex(r, g, b)) == Colors.Ok((r as int as Colors.u8, g as int as Colors.u8, b as int as Colors.u8))
  {
    Colors.RgbRoundTrip(r as int as Colors.u8, g as int as Colors.u8, b as int as Colors.u8);
  }

  /** A component above 255 is written with all its digits: 256 gives "100". */
  lemma WideComponent()
    ensures RgbToHex(256, 0, 0) == "#1000000"
  {
    assert UpperHex(256) == "100" by {
      assert UpperHex(16) == "10";
    }
  }

  /** The keys of the six optional attributes, numbered in the order
      `to_string` writes them. */
  function Key(slot: nat): string
    requires slot < 6
  {
    if slot == 0 then "fill"
    else if slot == 1 then "stroke"
    else if slot == 2 then "stroke-width"
    else if slot == 3 then "opacity"
    else if slot == 4 then "fill-opacity"
    else "stroke-opacity"
  }

  /** `{}` of an optional number. */
  function FormatOption(x: Option<real>): (r: Option<string>)
    ensures r.Some? <==> x.Some?
  {
    match x
    case None => None
    case Some(v) => Some(FormatReal(v))
  }

  /** One `key:value;` entry, as `format!("fill:{};", ..)` and its
      siblings write it. */
  function EntryText(slot: nat, value: string): (s: string)
    requires slot < 6
    ensures |s| > 0 && s[|s| - 1] == ';'
  {
    Key(slot) + ":" + value + ";"
  }

  /** `text` followed by the entry of the attribute in `slot`, when it is set. */
  function AppendEntry(text: string, slot: nat, value: Option<string>): string
    requires slot < 6
  {
    match value
    case None => text
    case Some(x) => text + EntryText(slot, x)
  }

  /** The setters of `Style`. */
  datatype Setter =
    | SetFill(fill: string)
    | SetStroke(stroke: string)
    | SetStrokeWidth(strokeWidth: real)
    | SetOpacity(opacity: real)
    | SetFillOpacity(fillOpacity: real)
    | SetStrokeOpacity(strokeOpacity: real)
    | SetAngle(angleDeg: real)
  {
    /** The slot a setter writes; `set_angle` writes none of the six. */
    function Slot(): nat {
      match this
      case SetFill(_) => 0
      case SetStroke(_) => 1
      case SetStrokeWidth(_) => 2
      case SetOpacity(_) => 3
      case SetFillOpacity(_) => 4
      case SetStrokeOpacity(_) => 5
      case SetAngle(_) => 6
    }

    /** The text the written slot renders to. */
    function Rendered(): string {
      match this
      case SetFill(f) => f
      case SetStroke(s) => s
      case SetStrokeWidth(x) => FormatReal(x)
      case SetOpacity(x) => FormatReal(x)
      case SetFillOpacity(x) => FormatReal(x)
      case SetStrokeOpacity(x) => FormatReal(x)
      case SetAngle(x) => FormatReal(x)
    }
  }

  /** The fields of a `Style`. */
  datatype StyleValue = StyleValue(
    fill: Option<string>,
    stroke: Option<string>,
    strokeWidth: Option<real>,
    opacity: Option<real>,
    fillOpacity: Option<real>,
    strokeOpacity: Option<real>,
    angle: real)
  {
    /** No optional attribute is set; the angle does not count. */
    predicate IsEmpty() {
      fill.None? && stroke.None? && strokeWidth.None? && opacity.None? && fillOpacity.None? && strokeOpacity.None?
    }

    /** The rendered value of the optional attribute in `slot`, if set. */
    function SlotValue(slot: nat): Option<string>
      requires slot < 6
    {
      if slot == 0 then fill
      else if slot == 1 then stroke
      else if slot == 2 then FormatOption(strokeWidth)
      else if slot == 3 then FormatOption(opacity)
      else if slot == 4 then FormatOption(fillOpacity)
      else FormatOption(strokeOpacity)
    }

    /** The text of the attributes in the first `n` slots. */
    function TextUpTo(n: nat): string
      requires n <= 6
    {
      if n == 0 then "" else AppendEntry(TextUpTo(n - 1), n - 1, SlotValue(n - 1))
    }

    /** `to_string`: every set attribute as `key:value;`, in key order. */
    function Text(): string {
      TextUpTo(6)
    }

    /** The set attributes among the first `n` slots, as (slot, value)
        pairs in slot order. */
    function EntriesUpTo(n: nat): (es: seq<(nat, string)>)
      requires n <= 6
      ensures forall i :: 0 <= i < |es| ==> es[i].0 < n
    {
      if n == 0 then []
      else
        match SlotValue(n - 1)
        case None => EntriesUpTo(n - 1)
        case Some(v) => EntriesUpTo(n - 1) + [(n - 1, v)]
    }

    /** The set attributes, in key order. */
    function Entries(): seq<(nat, string)> {
      EntriesUpTo(6)
    }

    function After(s: Setter): StyleValue {
      match s
      case SetFill(f) => this.(fill := Some(f))
      case SetStroke(t) => this.(stroke := Some(t))
      case SetStrokeWidth(x) => this.(strokeWidth := Some(x))
      case SetOpacity(x) => this.(opacity := Some(x))
      case SetFillOpacity(x) => this.(fillOpacity := Some(x))
      case SetStrokeOpacity(x) => this.(strokeOpacity := Some(x))
      case SetAngle(a) => this.(angle := a)
    }
  }

  /** `Style::new()`. */
  const EmptyStyle := StyleValue(None, None, None, None, None, None, 0.0)

  /** The entries written one after another. */
  function Join(es: seq<(nat, string)>): string
    requires forall i :: 0 <= i < |es| ==> es[i].0 < 6
  {
    if es == [] then "" else Join(es[..|es| - 1]) + EntryText(es[|es| - 1].0, es[|es| - 1].1)
  }

  /** The text is the entries of the set attributes joined in key order. */
  lemma {:induction false} TextIsJoinedEntries(v: StyleValue, n: nat)
    requires n <= 6
    ensures v.TextUpTo(n) == Join(v.EntriesUpTo(n))
  {
    if n > 0 {
      TextIsJoinedEntries(v, n - 1);
      var es := v.EntriesUpTo(n - 1);
      match v.SlotValue(n - 1)
      case None =>
      case Some(x) =>
        assert (es + [(n - 1, x)])[..|es|] == es;
    }
  }

  /** The entries of `n` slots extend those of `n - 1` slots by at most
      the entry of slot `n - 1`. */
  lemma EntriesExtend(v: StyleValue, n: nat)
    requires 0 < n <= 6
    ensures var es := v.EntriesUpTo(n); var rest := v.EntriesUpTo(n - 1);
      |rest| <= |es| <= |rest| + 1
      && (forall i :: 0 <= i < |rest| ==> es[i] == rest[i])
      && (|es| == |rest| + 1 <==> v.SlotValue(n - 1).Some?)
      && (|es| == |rest| + 1 ==> es[|rest|] == (n - 1, v.SlotValue(n - 1).value))
  {
  }

  predicate SlotsIncrease(es: seq<(nat, string)>) {
    forall i, j :: 0 <= i < j < |es| ==> es[i].0 < es[j].0
  }

  /** The entries are in strictly increasing key order, whatever order the
      setters ran in. */
  lemma {:induction false} EntriesInKeyOrder(v: StyleValue, n: nat)
    requires n <= 6
    ensures SlotsIncrease(v.EntriesUpTo(n))
  {
    if n > 0 {
      EntriesInKeyOrder(v, n - 1);
      var rest := v.EntriesUpTo(n - 1);
      match v.SlotValue(n - 1)
      case None =>
      case Some(x) =>
        var es := rest + [(n - 1, x)];
        assert v.EntriesUpTo(n) == es;
        forall i, j | 0 <= i < j < |es|
          ensures es[i].0 < es[j].0
        {
          assert es[i] == rest[i];
          if j < |rest| {
            assert es[j] == rest[j];
          }
        }
    }
  }

  predicate CarryValues(v: StyleValue, es: seq<(nat, string)>) {
    forall i :: 0 <= i < |es| ==> es[i].0 < 6 && v.SlotValue(es[i].0) == Some(es[i].1)
  }

  /** Each entry carries the rendered value of its attribute. */
  lemma {:induction false} EntriesCarryValues(v: StyleValue, n: nat)
    requires n <= 6
    ensures CarryValues(v, v.EntriesUpTo(n))
  {
    if n > 0 {
      EntriesCarryValues(v, n - 1);
      var rest := v.EntriesUpTo(n - 1);
      match v.SlotValue(n - 1)
      case None =>
      case Some(x) =>
        var es := rest + [(n - 1, x)];
        assert v.EntriesUpTo(n) == es;
        assert forall i :: 0 <= i < |rest| ==> es[i] == rest[i];
    }
  }

  /** An attribute has an entry exactly when it is set. */
  lemma {:induction false} EntryIffSet(v: StyleValue, n: nat, k: nat)
    requires k < n <= 6
    ensures v.SlotValue(k).Some? <==> exists i :: 0 <= i < |v.EntriesUpTo(n)| && v.EntriesUpTo(n)[i].0 == k
  {
    var es := v.EntriesUpTo(n);
    var rest := v.EntriesUpTo(n - 1);
    EntriesExtend(v, n);
    if k < n - 1 {
      EntryIffSet(v, n - 1, k);
      if v.SlotValue(k).Some? {
        var i :| 0 <= i < |rest| && rest[i].0 == k;
        assert es[i] == rest[i];
      }
    } else if v.SlotValue(k).Some? {
      assert es[|es| - 1].0 == k;
    }
  }

  /** Only the first `n` slots count for the first `n` pieces. */
  lemma {:induction false} TextUpToEmptyIff(v: StyleValue, n: nat)
    requires n <= 6
    ensures v.TextUpTo(n) == "" <==> forall k :: 0 <= k < n ==> v.SlotValue(k).None?
  {
    if n > 0 {
      TextUpToEmptyIff(v, n - 1);
      if v.SlotValue(n - 1).Some? {
        assert |v.TextUpTo(n)| == |v.TextUpTo(n - 1)| + |EntryText(n - 1, v.SlotValue(n - 1).value)|;
      }
    }
  }

  /** The text is empty exactly when no optional attribute is set, which is
      what `is_empty` is taken to test. */
  lemma TextEmptyIff(v: StyleValue)
    ensures v.Text() == "" <==> v.IsEmpty()
  {
    TextUpToEmptyIff(v, 6);
    if !v.IsEmpty() {
      var k := if v.fill.Some? then 0 else if v.stroke.Some? then 1 else if v.strokeWidth.Some? then 2
        else if v.opacity.Some? then 3 else if v.fillOpacity.Some? then 4 else 5;
      assert v.SlotValue(k).Some?;
    }
  }

  /** The angle never shows in the text. */
  lemma AngleIgnored(v: StyleValue, a: real)
    ensures v.After(SetAngle(a)).Text() == v.Text()
  {
    var w := v.After(SetAngle(a));
    assert forall k :: 0 <= k < 6 ==> w.SlotValue(k) == v.SlotValue(k);
    assert w.TextUpTo(1) == v.TextUpTo(1);
    assert w.TextUpTo(2) == v.TextUpTo(2);
    assert w.TextUpTo(3) == v.TextUpTo(3);
    assert w.TextUpTo(4) == v.TextUpTo(4);
    assert w.TextUpTo(5) == v.TextUpTo(5);
  }

  /** Each setter sets exactly its own attribute to its argument and leaves
      every other attribute and the angle as they were. */
  lemma SetterFrame(v: StyleValue, s: Setter)
    ensures s.Slot() < 6 ==> v.After(s).SlotValue(s.Slot()) == Some(s.Rendered())
    ensures forall k :: 0 <= k < 6 && k != s.Slot() ==> v.After(s).SlotValue(k) == v.SlotValue(k)
    ensures !s.SetAngle? ==> v.After(s).angle == v.angle
    ensures s.SetAngle? ==> v.After(s).angle == s.angleDeg
  {
  }

  /** Setters of different attributes commute, so the text does not depend
      on the order in which attributes were set. */
  lemma SettersCommute(v: StyleValue, s: Setter, t: Setter)
    requires s.Slot() != t.Slot()
    ensures v.After(s).After(t) == v.After(t).After(s)
  {
  }

  /** Of two sets of the same attribute only the last counts. */
  lemma LastSetWins(v: StyleValue, s: Setter, t: Setter)
    requires s.Slot() == t.Slot()
    ensures v.After(s).After(t) == v.After(t)
  {
  }

  /** A new style renders to nothing. */
  lemma NewStyleIsEmpty()
    ensures EmptyStyle.IsEmpty() && EmptyStyle.Text() == "" && EmptyStyle.angle == 0.0
  {
    TextEmptyIff(EmptyStyle);
  }

  lemma StrokeAndWidthOnly(v: StyleValue)
    requires v.fill.None? && v.stroke.Some? && v.strokeWidth.Some?
    requires v.opacity.None? && v.fillOpacity.None? && v.strokeOpacity.None?
    ensures v.Text() == EntryText(1, v.stroke.value) + EntryText(2, FormatReal(v.strokeWidth.value))
  {
    assert v.TextUpTo(6) == v.TextUpTo(5) == v.TextUpTo(4) == v.TextUpTo(3);
    var e := EntryText(1, v.stroke.value);
    assert v.TextUpTo(1) == "";
    assert v.TextUpTo(2) == "" + e;
    assert "" + e == e;
  }

  lemma StrokeEntrySpelling()
    ensures EntryText(1, "#000000") == "stroke:#000000;"
  {
  }

  lemma StrokeWidthEntrySpelling()
    ensures EntryText(2, "1") == "stroke-width:1;"
  {
  }

  /** Stroke width 1 set before stroke `#000000` is written after it:
      "stroke:#000000;stroke-width:1;". */
  lemma StrokeExample()
    ensures EmptyStyle.After(SetStrokeWidth(1.0)).After(SetStroke("#000000")).Text()
      == "stroke:#000000;" + "stroke-width:1;"
  {
    StrokeAndWidthOnly(EmptyStyle.After(SetStrokeWidth(1.0)).After(SetStroke("#000000")));
    FormatIntegers();
    StrokeEntrySpelling();
    StrokeWidthEntrySpelling();
  }

  /** A style that its setters update in place. */
  class Style {
    var fill: Option<string>
    var stroke: Option<string>
    var strokeWidth: Option<real>
    var opacity: Option<real>
    var fillOpacity: Option<real>
    var strokeOpacity: Option<real>
    var angle: real

    function Value(): StyleValue
      reads this
    {
      StyleValue(fill, stroke, strokeWidth, opacity, fillOpacity, strokeOpacity, angle)
    }

    /** `Style::new`: nothing set, angle 0. */
    constructor ()
      ensures Value() == EmptyStyle
    {
      fill, stroke, strokeWidth, opacity, fillOpacity, strokeOpacity := None, None, None, None, None, None;
      angle := 0.0;
    }

    method SetFill(f: string)
      modifies this
      ensures Value() == old(Value()).After(Setter.SetFill(f))
    {
      fill := Some(f);
    }

    method SetStroke(s: string)
      modifies this
      ensures Value() == old(Value()).After(Setter.SetStroke(s))
    {
      stroke := Some(s);
    }

    method SetStrokeWidth(w: real)
      modifies this
      ensures Value() == old(Value()).After(Setter.SetStrokeWidth(w))
    {
      strokeWidth := Some(w);
    }

    method SetOpacity(x: real)
      modifies this
      ensures Value() == old(Value()).After(Setter.SetOpacity(x))
    {
      opacity := Some(x);
    }

    method SetFillOpacity(x: real)
      modifies this
      ensures Value() == old(Value()).After(Setter.SetFillOpacity(x))
    {
      fillOpacity := Some(x);
    }

    method SetStrokeOpacity(x: real)
      modifies this
      ensures Value() == old(Value()).After(Setter.SetStrokeOpacity(x))
    {
      strokeOpacity := Some(x);
    }

    method SetAngle(a: real)
      modifies this
      ensures Value() == old(Value()).After(Setter.SetAngle(a))
    {
      angle := a;
    }

    /** `to_string`: one conditional append per optional attribute. */
    method ToString() returns (s: string)
      ensures s == Value().Text()
    {
      ghost var v := Value();
      s := "";
      s := PushEntry(s, 0, fill);
      assert s == v.TextUpTo(1);
      s := PushEntry(s, 1, stroke);
      assert s == v.TextUpTo(2);
      s := PushEntry(s, 2, FormatOption(strokeWidth));
      assert s == v.TextUpTo(3);
      s := PushEntry(s, 3, FormatOption(opacity));
      assert s == v.TextUpTo(4);
      s := PushEntry(s, 4, FormatOption(fillOpacity));
      assert s == v.TextUpTo(5);
      s := PushEntry(s, 5, FormatOption(strokeOpacity));
    }
  }

  /** One `if let Some(x) = .. { push_str(&format!("key:{};", x)) }` of
      `to_string`. */
  method PushEntry(s: string, slot: nat, value: Option<string>) returns (t: string)
    requires slot < 6
    ensures t == AppendEntry(s, slot, value)
  {
    t := s;
    if value.Some? {
      t := t + EntryText(slot, value.value);
    }
  }
}
