/** A mindmap node (src/mindmap/node.rs): an id, a label, a centre and a
    radius, drawn as a plain circle. */
module Nodes {
  import opened Text
  import opened Styling
  import opened DrawSvg
  import opened Circles

  datatype NodeValue = NodeValue(id: string, labelText: string, cx: real, cy: real, radius: real)
  {
    /** The circle `to_svg` makes: `Circle::new` with the node's id, centre
        and radius, so with a new empty style. */
    function AsCircle(): (c: CircleValue)
      // This ensures unfolds the body for the proofs about the node's rendering.
      ensures c.id == id && c.cx == cx && c.cy == cy && c.radius == radius && c.style == EmptyStyle
    {
      CircleValue(id, cx, cy, radius, EmptyStyle)
    }

    /** `to_svg`. */
    function Svg(): string {
      AsCircle().Svg()
    }
  }

  /** A node is drawn as `<circle id=".." cx=".." cy=".." r=".." />`: the
      style is empty, so no style attribute is written, and the label does
      not appear. */
  lemma NodeSpelled(n: NodeValue)
    ensures n.Svg() == "<circle" + Attr("id", n.id) + Attr("cx", FormatReal(n.cx))
      + Attr("cy", FormatReal(n.cy)) + Attr("r", FormatReal(n.radius)) + " />"
    ensures Lookup(n.AsCircle().Attributes(), "style") == None
  {
    CircleSpelled(n.AsCircle());
    ClosingCases(EmptyStyle);
    NewStyleIsEmpty();
    CircleLookups(n.AsCircle());
  }

  /** A node whose id holds no line feed is drawn on a single line. */
  lemma NodeLine(n: NodeValue)
    requires NoNewline(n.id)
    ensures LineCount(n.Svg()) == 1
  {
    var c := n.AsCircle();
    CircleSpelled(c);
    NewStyleIsEmpty();
    ClosingCases(EmptyStyle);
    FormatRealNoNewline(n.cx);
    FormatRealNoNewline(n.cy);
    FormatRealNoNewline(n.radius);
    AttrNoNewline("id", n.id);
    AttrNoNewline("cx", FormatReal(n.cx));
    AttrNoNewline("cy", FormatReal(n.cy));
    AttrNoNewline("r", FormatReal(n.radius));
    assert NoNewline(CircleHead(c));
    SingleLine(n.Svg());
  }

  /** The label never shows: two nodes that differ only in their labels are
      drawn the same. */
  lemma LabelIgnored(n: NodeValue, text: string)
    ensures n.(labelText := text).Svg() == n.Svg()
  {
    NodeSpelled(n);
    NodeSpelled(n.(labelText := text));
  }

  /** src/mindmap/node.rs: node "a" labelled "A" at (100, 100) with radius 10. */
  lemma NodeExample()
    ensures NodeValue("a", "A", 100.0, 100.0, 10.0).Svg()
      == "<circle" + " id=\"a\"" + " cx=\"100\"" + " cy=\"100\"" + " r=\"10\"" + " />"
  {
    var n := NodeValue("a", "A", 100.0, 100.0, 10.0);
    NodeSpelled(n);
    NodeHead();
  }

  lemma NodeHead()
    ensures "<circle" + Attr("id", "a") + Attr("cx", FormatReal(100.0)) + Attr("cy", FormatReal(100.0))
      + Attr("r", FormatReal(10.0)) == "<circle" + " id=\"a\"" + " cx=\"100\"" + " cy=\"100\"" + " r=\"10\""
  {
    FormatIntegers();
  }
}
