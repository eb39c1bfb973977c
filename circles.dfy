/** `Circle` (src/shapes/circle.rs): one self-closing `<circle>` tag with
    the attributes id, cx, cy, r and, when the style text is non-empty,
    style. */
module Circles {
  import opened Text
  import opened Styling
  import opened DrawSvg

  /** The attribute names a circle can carry, in the order it writes them. */
  const CircleOrder: seq<string> := ["id", "cx", "cy", "r", "style"]

  /** The fields of a `Circle`. */
  datatype CircleValue = CircleValue(id: string, cx: real, cy: real, radius: real, style: StyleValue)
  {
    /** Every attribute slot in writing order; only the style slot can be unset. */
    function Slots(): seq<(string, Option<string>)> {
      [("id", Some(id)), ("cx", Some(FormatReal(cx))), ("cy", Some(FormatReal(cy))),
       ("r", Some(FormatReal(radius))), ("style", StyleSlot(style))]
    }

    function Attributes(): seq<(string, string)> {
      Present(Slots())
    }

    /** `to_svg`. */
    function Svg(): string {
      Element("circle", Attributes())
    }
  }

  lemma CircleSlotNames(c: CircleValue)
    ensures Names(c.Slots()) == CircleOrder
    ensures Distinct(CircleOrder)
  {
  }

  /** The attributes are written in the order id, cx, cy, r, style. */
  lemma CircleAttributeOrder(c: CircleValue)
    ensures FollowsOrder(c.Attributes(), CircleOrder)
  {
    CircleSlotNames(c);
    PresentFollowsOrder(c.Slots());
  }

  /** id, cx, cy and r are always written with the circle's own values, the
      style exactly when its text is non-empty, and never a transform, even
      when the style carries a non-zero angle. */
  lemma CircleLookups(c: CircleValue)
    ensures Lookup(c.Attributes(), "id") == Some(c.id)
    ensures Lookup(c.Attributes(), "cx") == Some(FormatReal(c.cx))
    ensures Lookup(c.Attributes(), "cy") == Some(FormatReal(c.cy))
    ensures Lookup(c.Attributes(), "r") == Some(FormatReal(c.radius))
    ensures Lookup(c.Attributes(), "style").Some? <==> c.style.Text() != ""
    ensures Lookup(c.Attributes(), "style").Some? ==> Lookup(c.Attributes(), "style").value == c.style.Text()
    ensures Lookup(c.Attributes(), "transform") == None
  {
    var slots := c.Slots();
    CircleSlotNames(c);
    LookupPresent(slots, 0);
    LookupPresent(slots, 1);
    LookupPresent(slots, 2);
    LookupPresent(slots, 3);
    LookupPresent(slots, 4);
    AbsentName(slots, "transform");
  }

  /** The rendering spelled out: the four fixed attributes, then exactly
      what `close_element` would append for the circle's style. */
  lemma CircleSpelled(c: CircleValue)
    ensures c.Svg() == CircleHead(c) + Closing(c.style)
  {
    var slots := c.Slots();
    assert slots == slots[..4] + [("style", StyleSlot(c.style))];
    CloseWithStyle("circle", slots[..4], c.style);
    CircleHeadSpelled(c);
  }

  function CircleHead(c: CircleValue): string {
    "<circle" + Attr("id", c.id) + Attr("cx", FormatReal(c.cx)) + Attr("cy", FormatReal(c.cy))
      + Attr("r", FormatReal(c.radius))
  }

  lemma CircleHeadSpelled(c: CircleValue)
    ensures Open("circle", c.Slots()[..4]) == CircleHead(c)
  {
    var s0: seq<(string, Option<string>)> := [];
    var s1 := s0 + [("id", Some(c.id))];
    var s2 := s1 + [("cx", Some(FormatReal(c.cx)))];
    var s3 := s2 + [("cy", Some(FormatReal(c.cy)))];
    var s4 := s3 + [("r", Some(FormatReal(c.radius)))];
    assert c.Slots()[..4] == s4;
    assert Open("circle", s0) == "<circle";
    OpenSnoc("circle", s0, "id", c.id);
    OpenSnoc("circle", s1, "cx", FormatReal(c.cx));
    OpenSnoc("circle", s2, "cy", FormatReal(c.cy));
    OpenSnoc("circle", s3, "r", FormatReal(c.radius));
  }

  /** The angle of the style never shows in the rendering. */
  lemma CircleIgnoresAngle(c: CircleValue, a: real)
    ensures c.(style := c.style.After(SetAngle(a))).Svg() == c.Svg()
  {
    AngleIgnored(c.style, a);
  }

  /** tests/test_elements.rs: a new circle "c1" at (100, 100) with radius 10. */
  lemma NewCircleExample()
    ensures CircleValue("c1", 100.0, 100.0, 10.0, EmptyStyle).Svg()
      == "<circle" + " id=\"c1\"" + " cx=\"100\"" + " cy=\"100\"" + " r=\"10\"" + " />"
  {
    CircleSpelled(CircleValue("c1", 100.0, 100.0, 10.0, EmptyStyle));
    ClosingCases(EmptyStyle);
    NewCircleHead();
  }

  lemma NewCircleHead()
    ensures CircleHead(CircleValue("c1", 100.0, 100.0, 10.0, EmptyStyle))
      == "<circle" + " id=\"c1\"" + " cx=\"100\"" + " cy=\"100\"" + " r=\"10\""
  {
    FormatIntegers();
  }

  /** A circle whose style its owner can change in place. */
  class Circle {
    var id: string
    var cx: real
    var cy: real
    var radius: real
    var style: Style

    function Data(): CircleValue
      reads this, style
    {
      CircleValue(id, cx, cy, radius, style.Value())
    }

    /** `Circle::new`: the given id, centre and radius, a new empty style. */
    constructor (id: string, cx: real, cy: real, radius: real)
      ensures Data() == CircleValue(id, cx, cy, radius, EmptyStyle)
      ensures fresh(style)
    {
      this.id := id;
      this.cx := cx;
      this.cy := cy;
      this.radius := radius;
      style := new Style();
    }

    /** `to_svg`: the fixed attributes, the style when its text is non-empty,
        then ` />`. */
    method ToSvg() returns (s: string)
      ensures s == Data().Svg()
    {
      ghost var slots := Data().Slots();
      s := "<circle";
      assert s == Open("circle", slots[..0]);
      s := PushSlot("circle", slots[..0], s, "id", Some(id));
      assert slots[..0] + [slots[0]] == slots[..1];
      s := PushSlot("circle", slots[..1], s, "cx", Some(FormatReal(cx)));
      assert slots[..1] + [slots[1]] == slots[..2];
      s := PushSlot("circle", slots[..2], s, "cy", Some(FormatReal(cy)));
      assert slots[..2] + [slots[2]] == slots[..3];
      s := PushSlot("circle", slots[..3], s, "r", Some(FormatReal(radius)));
      assert slots[..3] + [slots[3]] == slots[..4];
      var styleString := style.ToString();
      s := PushSlot("circle", slots[..4], s, "style", if styleString == "" then None else Some(styleString));
      assert slots[..4] + [slots[4]] == slots;
      s := s + " />";
    }
  }
}
