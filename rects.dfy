/** `Rect` (src/shapes/rect.rs): one self-closing `<rect>` tag with the
    attributes id, x, y, width, height, then rx and ry when they are set,
    the style when its text is non-empty, and a rotation about the centre
    when the style's angle is not zero. */
module Rects {
  import opened Text
  import opened Styling
  import opened DrawSvg

  /** The attribute names a rectangle can carry, in the order it writes them. */
  const RectOrder: seq<string> := ["id", "x", "y", "width", "height", "rx", "ry", "style", "transform"]

  /** The value of the transform: `rotate(angle cx cy)` about the centre
      (x + width/2, y + height/2). */
  function Rotation(angle: real, x: real, y: real, width: real, height: real): string {
    "rotate(" + FormatReal(angle) + " " + FormatReal(x + width / 2.0) + " " + FormatReal(y + height / 2.0) + ")"
  }

  /** The fields of a `Rect`. */
  datatype RectValue = RectValue(
    id: string, x: real, y: real, width: real, height: real,
    rx: Option<real>, ry: Option<real>, style: StyleValue)
  {
    /** The transform slot: set exactly when the angle is not zero, rotating
        about the centre of the rectangle. */
    function TransformSlot(): Option<string> {
      if style.angle != 0.0 then Some(Rotation(style.angle, x, y, width, height)) else None
    }

    /** The slots written by the opening `format!`, always set. */
    function FixedSlots(): seq<(string, Option<string>)> {
      [("id", Some(id)), ("x", Some(FormatReal(x))), ("y", Some(FormatReal(y))),
       ("width", Some(FormatReal(width))), ("height", Some(FormatReal(height)))]
    }

    /** The slots pushed afterwards, each only when it applies. */
    function OptionalSlots(): seq<(string, Option<string>)> {
      [("rx", FormatOption(rx)), ("ry", FormatOption(ry)),
       ("style", StyleSlot(style)), ("transform", TransformSlot())]
    }

    /** Every attribute slot in writing order. */
    function Slots(): seq<(string, Option<string>)> {
      FixedSlots() + OptionalSlots()
    }

    function Attributes(): seq<(string, string)> {
      Present(Slots())
    }

    /** `to_svg`. */
    function Svg(): string {
      Element("rect", Attributes())
    }
  }

  lemma RectSlotNames(r: RectValue)
    ensures Names(r.Slots()) == RectOrder
    ensures Distinct(RectOrder)
  {
    RectOrderDistinct();
  }

  lemma RectOrderDistinct()
    ensures Distinct(RectOrder)
  {
  }

  /** The attributes are written in the order id, x, y, width, height, rx,
      ry, style, transform. */
  lemma RectAttributeOrder(r: RectValue)
    ensures FollowsOrder(r.Attributes(), RectOrder)
  {
    RectSlotNames(r);
    PresentFollowsOrder(r.Slots());
  }

  /** The five fixed attributes are always written; rx and ry exactly when
      set; the style exactly when its text is non-empty; the rotation
      exactly when the angle is not zero, about (x + width/2, y + height/2). */
  lemma RectLookups(r: RectValue)
    ensures Lookup(r.Attributes(), "id") == Some(r.id)
    ensures Lookup(r.Attributes(), "x") == Some(FormatReal(r.x))
    ensures Lookup(r.Attributes(), "y") == Some(FormatReal(r.y))
    ensures Lookup(r.Attributes(), "width") == Some(FormatReal(r.width))
    ensures Lookup(r.Attributes(), "height") == Some(FormatReal(r.height))
    ensures Lookup(r.Attributes(), "rx").Some? <==> r.rx.Some?
    ensures r.rx.Some? ==> Lookup(r.Attributes(), "rx") == Some(FormatReal(r.rx.value))
    ensures Lookup(r.Attributes(), "ry").Some? <==> r.ry.Some?
    ensures r.ry.Some? ==> Lookup(r.Attributes(), "ry") == Some(FormatReal(r.ry.value))
    ensures Lookup(r.Attributes(), "style").Some? <==> r.style.Text() != ""
    ensures Lookup(r.Attributes(), "style").Some? ==> Lookup(r.Attributes(), "style").value == r.style.Text()
    ensures Lookup(r.Attributes(), "transform").Some? <==> r.style.angle != 0.0
    ensures r.style.angle != 0.0 ==>
      Lookup(r.Attributes(), "transform") == Some(Rotation(r.style.angle, r.x, r.y, r.width, r.height))
  {
    var slots := r.Slots();
    RectSlotNames(r);
    LookupPresent(slots, 0);
    LookupPresent(slots, 1);
    LookupPresent(slots, 2);
    LookupPresent(slots, 3);
    LookupPresent(slots, 4);
    LookupPresent(slots, 5);
    LookupPresent(slots, 6);
    LookupPresent(slots, 7);
    LookupPresent(slots, 8);
  }

  /** The opening `format!`: the five fixed attributes. */
  function RectHead(r: RectValue): string {
    "<rect" + Attr("id", r.id) + Attr("x", FormatReal(r.x)) + Attr("y", FormatReal(r.y))
      + Attr("width", FormatReal(r.width)) + Attr("height", FormatReal(r.height))
  }

  lemma RectHeadSpelled(r: RectValue)
    ensures Open("rect", r.FixedSlots()) == RectHead(r)
  {
    var s0: seq<(string, Option<string>)> := [];
    var s1 := s0 + [("id", Some(r.id))];
    var s2 := s1 + [("x", Some(FormatReal(r.x)))];
    var s3 := s2 + [("y", Some(FormatReal(r.y)))];
    var s4 := s3 + [("width", Some(FormatReal(r.width)))];
    var s5 := s4 + [("height", Some(FormatReal(r.height)))];
    assert r.FixedSlots() == s5;
    assert Open("rect", s0) == "<rect";
    OpenSnoc("rect", s0, "id", r.id);
    OpenSnoc("rect", s1, "x", FormatReal(r.x));
    OpenSnoc("rect", s2, "y", FormatReal(r.y));
    OpenSnoc("rect", s3, "width", FormatReal(r.width));
    OpenSnoc("rect", s4, "height", FormatReal(r.height));
  }

  /** A rectangle with nothing optional set writes only its five fixed
      attributes. */
  lemma PlainRect(r: RectValue)
    requires r.rx.None? && r.ry.None? && r.style.IsEmpty() && r.style.angle == 0.0
    ensures r.Svg() == RectHead(r) + " />"
  {
    TextEmptyIff(r.style);
    assert AllUnset(r.OptionalSlots());
    UnsetWritesNothing(r.OptionalSlots());
    PresentAppend(r.FixedSlots(), r.OptionalSlots());
    assert r.Attributes() == Present(r.FixedSlots());
    RectHeadSpelled(r);
  }

  /** tests/test_elements.rs: a new rectangle "r1" at (100, 100), 10 by 10. */
  lemma NewRectExample()
    ensures RectValue("r1", 100.0, 100.0, 10.0, 10.0, None, None, EmptyStyle).Svg()
      == "<rect" + " id=\"r1\"" + " x=\"100\"" + " y=\"100\"" + " width=\"10\"" + " height=\"10\"" + " />"
  {
    PlainRect(RectValue("r1", 100.0, 100.0, 10.0, 10.0, None, None, EmptyStyle));
    NewRectHead();
  }

  lemma NewRectHead()
    ensures RectHead(RectValue("r1", 100.0, 100.0, 10.0, 10.0, None, None, EmptyStyle))
      == "<rect" + " id=\"r1\"" + " x=\"100\"" + " y=\"100\"" + " width=\"10\"" + " height=\"10\""
  {
    FormatIntegers();
  }

  /** A rectangle whose corner radii and style its owner can change in place. */
  class Rect {
    var id: string
    var x: real
    var y: real
    var width: real
    var height: real
    var rx: Option<real>
    var ry: Option<real>
    var style: Style

    function Data(): RectValue
      reads this, style
    {
      RectValue(id, x, y, width, height, rx, ry, style.Value())
    }

    /** `Rect::new`: no corner radii, a new empty style. */
    constructor (id: string, x: real, y: real, width: real, height: real)
      ensures Data() == RectValue(id, x, y, width, height, None, None, EmptyStyle)
      ensures fresh(style)
    {
      this.id := id;
      this.x := x;
      this.y := y;
      this.width := width;
      this.height := height;
      rx := None;
      ry := None;
      style := new Style();
    }

    method SetRx(v: real)
      modifies this
      ensures Data() == old(Data()).(rx := Some(v))
    {
      rx := Some(v);
    }

    method SetRy(v: real)
      modifies this
      ensures Data() == old(Data()).(ry := Some(v))
    {
      ry := Some(v);
    }

    /** `to_svg`: the fixed attributes, then each optional one that applies,
        then ` />`. */
    method ToSvg() returns (s: string)
      ensures s == Data().Svg()
    {
      s := "<rect" + Attr("id", id) + Attr("x", FormatReal(x)) + Attr("y", FormatReal(y))
        + Attr("width", FormatReal(width)) + Attr("height", FormatReal(height));
      RectHeadSpelled(Data());
      s := PushOptional(s);
      s := s + " />";
    }

    /** The `push_str` calls of `to_svg` after the opening `format!`: rx, ry,
        the style and the rotation, each only when it applies. */
    method PushOptional(head: string) returns (s: string)
      requires head == Open("rect", Data().FixedSlots())
      ensures s == Open("rect", Data().Slots())
    {
      ghost var r := Data();
      ghost var slots := r.FixedSlots();
      var rxText := if rx.Some? then Some(FormatReal(rx.value)) else None;
      assert rxText == FormatOption(r.rx);
      s := PushSlot("rect", slots, head, "rx", rxText);
      slots := slots + [("rx", rxText)];
      var ryText := if ry.Some? then Some(FormatReal(ry.value)) else None;
      assert ryText == FormatOption(r.ry);
      s := PushSlot("rect", slots, s, "ry", ryText);
      slots := slots + [("ry", ryText)];
      var styleString := style.ToString();
      var styleText := if styleString == "" then None else Some(styleString);
      assert styleText == StyleSlot(r.style);
      s := PushSlot("rect", slots, s, "style", styleText);
      slots := slots + [("style", styleText)];
      var transform: Option<string> := None;
      if style.angle != 0.0 {
        transform := Some(Rotation(style.angle, x, y, width, height));
      }
      assert transform == r.TransformSlot();
      s := PushSlot("rect", slots, s, "transform", transform);
      slots := slots + [("transform", transform)];
      assert slots == r.FixedSlots() + [("rx", rxText), ("ry", ryText), ("style", styleText), ("transform", transform)];
      assert slots == r.Slots();
    }
  }
}
