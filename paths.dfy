/** `Path` (src/shapes/path.rs): one self-closing `<path>` tag with the id,
    the `d` text copied as it is, and the style when its text is
    non-empty. */
module Paths {
  import opened Text
  import opened Styling
  import opened DrawSvg

  /** The attribute names a path can carry, in the order it writes them. */
  const PathOrder: seq<string> := ["id", "d", "style"]

  /** The fields of a `Path`. */
  datatype PathValue = PathValue(id: string, d: string, style: StyleValue)
  {
    function Slots(): seq<(string, Option<string>)> {
      [("id", Some(id)), ("d", Some(d)), ("style", StyleSlot(style))]
    }

    function Attributes(): seq<(string, string)> {
      Present(Slots())
    }

    /** `to_svg`. */
    function Svg(): string {
      Element("path", Attributes())
    }
  }

  lemma PathSlotNames(p: PathValue)
    ensures Names(p.Slots()) == PathOrder
    ensures Distinct(PathOrder)
  {
  }

  /** The attributes are written in the order id, d, style. */
  lemma PathAttributeOrder(p: PathValue)
    ensures FollowsOrder(p.Attributes(), PathOrder)
  {
    PathSlotNames(p);
    PresentFollowsOrder(p.Slots());
  }

  /** The id and the `d` text are written unchanged, whatever `d` holds; the
      style exactly when its text is non-empty; never a transform. */
  lemma PathLookups(p: PathValue)
    ensures Lookup(p.Attributes(), "id") == Some(p.id)
    ensures Lookup(p.Attributes(), "d") == Some(p.d)
    ensures Lookup(p.Attributes(), "style").Some? <==> p.style.Text() != ""
    ensures Lookup(p.Attributes(), "style").Some? ==> Lookup(p.Attributes(), "style").value == p.style.Text()
    ensures Lookup(p.Attributes(), "transform") == None
  {
    var slots := p.Slots();
    PathSlotNames(p);
    LookupPresent(slots, 0);
    LookupPresent(slots, 1);
    LookupPresent(slots, 2);
    AbsentName(slots, "transform");
  }

  /** The opening `format!`: id and `d`. */
  function PathHead(p: PathValue): string {
    "<path" + Attr("id", p.id) + Attr("d", p.d)
  }

  /** The rendering spelled out: id and `d`, then exactly what
      `close_element` would append for the path's style. */
  lemma PathSpelled(p: PathValue)
    ensures p.Svg() == PathHead(p) + Closing(p.style)
  {
    var slots := p.Slots();
    var s0: seq<(string, Option<string>)> := [];
    var s1 := s0 + [("id", Some(p.id))];
    var s2 := s1 + [("d", Some(p.d))];
    assert slots[..2] == s2;
    assert Open("path", s0) == "<path";
    OpenSnoc("path", s0, "id", p.id);
    OpenSnoc("path", s1, "d", p.d);
    assert slots == s2 + [("style", StyleSlot(p.style))];
    CloseWithStyle("path", s2, p.style);
  }

  /** tests/test_elements.rs: path "p1" with a stroke `#000000` writes the
      stroke as its style. */
  lemma StrokedPathExample(d: string)
    ensures PathValue("p1", d, EmptyStyle.After(SetStroke("#000000"))).Svg()
      == "<path" + " id=\"p1\"" + " d=\"" + d + "\"" + " style=\"" + "stroke:#000000;" + "\"" + " />"
  {
    var v := EmptyStyle.After(SetStroke("#000000"));
    PathSpelled(PathValue("p1", d, v));
    assert v.Text() == "stroke:#000000;" by {
      assert v.TextUpTo(6) == v.TextUpTo(5) == v.TextUpTo(4) == v.TextUpTo(3) == v.TextUpTo(2);
      assert v.TextUpTo(1) == "";
      assert v.TextUpTo(2) == "" + EntryText(1, "#000000");
      StrokeEntrySpelling();
    }
    ClosingCases(v);
  }

  /** A path whose id, `d` text and style text hold no line feed is drawn
      on a single line. */
  lemma PathLine(p: PathValue)
    requires NoNewline(p.id) && NoNewline(p.d) && NoNewline(p.style.Text())
    ensures LineCount(p.Svg()) == 1
  {
    PathSpelled(p);
    ClosingCases(p.style);
    assert NoNewline(PathHead(p));
    assert NoNewline(Closing(p.style));
    SingleLine(p.Svg());
  }

  /** A path whose style its owner can change in place. */
  class Path {
    var id: string
    var d: string
    var style: Style

    function Data(): PathValue
      reads this, style
    {
      PathValue(id, d, style.Value())
    }

    /** `Path::new`: the given id and `d` text, a new empty style. */
    constructor (id: string, d: string)
      ensures Data() == PathValue(id, d, EmptyStyle)
      ensures fresh(style)
    {
      this.id := id;
      this.d := d;
      style := new Style();
    }

    /** `to_svg`: id and `d`, the style when its text is non-empty, then ` />`. */
    method ToSvg() returns (s: string)
      ensures s == Data().Svg()
    {
      ghost var p := Data();
      s := "<path" + Attr("id", id) + Attr("d", d);
      var styleString := style.ToString();
      if styleString != "" {
        s := s + Attr("style", styleString);
      }
      s := s + " />";
      PathSpelled(p);
      ClosingByText(p.style);
      assert StyleAttr(styleString) == if styleString == "" then "" else Attr("style", styleString);
    }
  }
}
