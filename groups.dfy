/** `Group` (src/shapes/group.rs): an id, a style and an ordered list of
    children, drawn as `<g id="..">`, one tab-indented child per line in
    insertion order, and `</g>`. The children, boxed trait objects in the
    source, are values of the closed datatype `Drawable` of the concrete
    shapes. */
module Groups {
  import opened Text
  import opened Styling
  import opened DrawSvg
  import opened Circles
  import opened Rects
  import opened Paths
  import opened Nodes

  /** Everything that can be drawn. */
  datatype Drawable =
    | CircleShape(circle: CircleValue)
    | RectShape(rect: RectValue)
    | PathShape(path: PathValue)
    | NodeShape(node: NodeValue)
    | GroupShape(group: GroupValue)

  /** The fields of a `Group`. */
  datatype GroupValue = GroupValue(id: string, children: seq<Drawable>, style: StyleValue)

  /** `to_svg` of any drawable. Every rendering is non-empty and ends with
      '>'. */
  function Render(d: Drawable): (s: string)
    ensures |s| > 0 && s[|s| - 1] == '>'
    decreases d, 0
  {
    match d
    case CircleShape(c) => c.Svg()
    case RectShape(r) => r.Svg()
    case PathShape(p) => p.Svg()
    case NodeShape(n) => n.Svg()
    case GroupShape(g) => GroupSvg(g)
  }

  /** The renderings of the children, in order. */
  function RenderAll(cs: seq<Drawable>): (rs: seq<string>)
    ensures |rs| == |cs|
    decreases cs, 0
  {
    seq(|cs|, i requires 0 <= i < |cs| => Render(cs[i]))
  }

  /** The opening tag of a group, ending with a line feed: `<g id="..">`, or
      `<g id=".." style="..">` when the style has an optional attribute set.
      This is the evidently intended text; `OpeningAsWritten` is the text
      src/shapes/group.rs:35 writes. */
  function Opening(g: GroupValue): string {
    "<g id=\"" + g.id + "\"" + (if g.style.IsEmpty() then ">\n" else " style=\"" + g.style.Text() + "\">\n")
  }

  /** The opening tag as src/shapes/group.rs:35 writes it: the styled branch
      uses a raw string, so its `\n` is a backslash and the letter n, not a
      line feed. */
  function OpeningAsWritten(g: GroupValue): string {
    "<g id=\"" + g.id + "\"" + (if g.style.IsEmpty() then ">\n" else " style=\"" + g.style.Text() + "\">\\n")
  }

  /** The line of one child's rendering: a tab, the rendering and a line
      feed. Only the first line of a rendering that spans several lines is
      indented. */
  function Entry(r: string): string {
    "\t" + r + "\n"
  }

  /** The lines of the renderings, in order. */
  function Lines(rs: seq<string>): string {
    if rs == [] then "" else Lines(rs[..|rs| - 1]) + Entry(rs[|rs| - 1])
  }

  /** `to_svg` of a group: the opening tag, the children, `</g>`. */
  function GroupSvg(g: GroupValue): (s: string)
    ensures |s| > 0 && s[|s| - 1] == '>'
    decreases g, 0
  {
    Opening(g) + Lines(RenderAll(g.children)) + "</g>"
  }

  /** `to_svg` of a group as src/shapes/group.rs writes it. */
  function GroupSvgAsWritten(g: GroupValue): string {
    OpeningAsWritten(g) + Lines(RenderAll(g.children)) + "</g>"
  }

  /** The two agree on every group whose style is empty. */
  lemma AsWrittenAgreesWhenUnstyled(g: GroupValue)
    requires g.style.IsEmpty()
    ensures GroupSvgAsWritten(g) == GroupSvg(g)
  {
  }

  /** The total line count of the renderings. */
  function LineTotal(rs: seq<string>): nat {
    if rs == [] then 0 else LineTotal(rs[..|rs| - 1]) + LineCount(rs[|rs| - 1])
  }

  /** Renderings of `k` lines each total `k` times their number. */
  lemma {:induction false} LineTotalUniform(rs: seq<string>, k: nat)
    requires forall i :: 0 <= i < |rs| ==> LineCount(rs[i]) == k
    ensures LineTotal(rs) == k * |rs|
    decreases |rs|
  {
    if rs != [] {
      var front := rs[..|rs| - 1];
      assert forall i :: 0 <= i < |front| ==> front[i] == rs[i];
      LineTotalUniform(front, k);
      assert k * |rs| == k * |front| + k;
    }
  }

  /** Every rendering is a non-empty text ending with '>'. */
  predicate EndTags(rs: seq<string>) {
    forall i :: 0 <= i < |rs| ==> |rs[i]| > 0 && rs[i][|rs[i]| - 1] == '>'
  }

  lemma RenderAllEndTags(cs: seq<Drawable>)
    ensures EndTags(RenderAll(cs))
  {
    var rs := RenderAll(cs);
    forall i | 0 <= i < |rs|
      ensures |rs[i]| > 0 && rs[i][|rs[i]| - 1] == '>'
    {
      assert rs[i] == Render(cs[i]);
    }
  }

  /** A child's line holds one more line feed than its rendering, and the
      rendering has one line more than it has line feeds, since it does not
      end with one. */
  lemma EntryNewlines(r: string)
    requires |r| > 0 && r[|r| - 1] == '>'
    ensures Newlines(Entry(r)) == LineCount(r)
  {
    NewlinesAppend("\t" + r, "\n");
    NewlinesAppend("\t", r);
    assert Newlines("\t") == 0 by { NoNewlineHasNone("\t"); }
    assert Newlines("\n") == 1 by { assert multiset("\n") == multiset{'\n'}; }
  }

  /** The children's lines hold exactly as many line feeds as the children
      have lines. */
  lemma {:induction false} LinesNewlines(rs: seq<string>)
    requires EndTags(rs)
    ensures Newlines(Lines(rs)) == LineTotal(rs)
    decreases |rs|
  {
    if rs != [] {
      var front := rs[..|rs| - 1];
      var last := rs[|rs| - 1];
      assert EndTags(front) by {
        forall i | 0 <= i < |front|
          ensures |front[i]| > 0 && front[i][|front[i]| - 1] == '>'
        {
          assert front[i] == rs[i];
        }
      }
      LinesNewlines(front);
      EntryNewlines(last);
      NewlinesAppend(Lines(front), Entry(last));
    }
  }

  lemma OpeningNewlines(g: GroupValue)
    requires NoNewline(g.id) && NoNewline(g.style.Text())
    ensures Newlines(Opening(g)) == 1
  {
    var text := g.style.Text();
    OpeningLineFeeds(g.id, text);
    if g.style.IsEmpty() {
      assert Opening(g) == "<g id=\"" + g.id + "\"" + ">\n";
    } else {
      assert Opening(g) == "<g id=\"" + g.id + "\"" + (" style=\"" + text + "\">\n");
    }
  }

  /** Either opening holds exactly one line feed, its last character. */
  lemma OpeningLineFeeds(id: string, text: string)
    requires NoNewline(id) && NoNewline(text)
    ensures Newlines("<g id=\"" + id + "\"" + ">\n") == 1
    ensures Newlines("<g id=\"" + id + "\"" + (" style=\"" + text + "\">\n")) == 1
  {
    var plain := "<g id=\"" + id + "\"" + ">";
    var styled := "<g id=\"" + id + "\"" + (" style=\"" + text + "\">");
    assert "<g id=\"" + id + "\"" + ">\n" == plain + "\n";
    assert "<g id=\"" + id + "\"" + (" style=\"" + text + "\">\n") == styled + "\n";
    LastLineFeed(plain);
    LastLineFeed(styled);
  }

  /** A line feed appended to a single line. */
  lemma LastLineFeed(s: string)
    requires NoNewline(s)
    ensures Newlines(s + "\n") == 1
  {
    assert multiset("\n") == multiset{'\n'};
    NoNewlineHasNone(s);
    NewlinesAppend(s, "\n");
  }

  /** A group whose id and style text hold no line feed has two lines of
      its own, the opening and `</g>`, plus all the lines of its children. */
  lemma GroupLineCount(g: GroupValue)
    requires NoNewline(g.id) && NoNewline(g.style.Text())
    ensures LineCount(GroupSvg(g)) == 2 + LineTotal(RenderAll(g.children))
  {
    var rs := RenderAll(g.children);
    RenderAllEndTags(g.children);
    LinesNewlines(rs);
    OpeningNewlines(g);
    ClosedLineCount(Opening(g), Lines(rs));
  }

  /** A group whose children are `k` lines each is 2 + k·n lines. */
  lemma UniformGroupLines(g: GroupValue, k: nat)
    requires NoNewline(g.id) && NoNewline(g.style.Text())
    requires forall i :: 0 <= i < |g.children| ==> LineCount(Render(g.children[i])) == k
    ensures LineCount(GroupSvg(g)) == 2 + k * |g.children|
  {
    GroupLineCount(g);
    UniformRenderings(g.children, k);
  }

  lemma UniformRenderings(cs: seq<Drawable>, k: nat)
    requires forall i :: 0 <= i < |cs| ==> LineCount(Render(cs[i])) == k
    ensures LineTotal(RenderAll(cs)) == k * |cs|
  {
    var rs := RenderAll(cs);
    assert forall i :: 0 <= i < |rs| ==> rs[i] == Render(cs[i]);
    LineTotalUniform(rs, k);
  }

  /** An opening line, lines that end with a line feed, then `</g>`. */
  lemma ClosedLineCount(o: string, c: string)
    requires Newlines(o) == 1
    ensures LineCount(o + c + "</g>") == 2 + Newlines(c)
  {
    var s := o + c + "</g>";
    assert s[|s| - 1] == '>';
    assert Newlines("</g>") == 0 by { NoNewlineHasNone("</g>"); }
    NewlinesAppend(o + c, "</g>");
    NewlinesAppend(o, c);
  }

  /** As written, a styled group with no children renders on one line, and
      its text carries a backslash followed by `n`: the raw string at
      src/shapes/group.rs:35 does not end the opening line. */
  lemma StyledGroupAsWritten(g: GroupValue)
    requires !g.style.IsEmpty() && g.children == []
    requires NoNewline(g.id) && NoNewline(g.style.Text())
    ensures LineCount(GroupSvgAsWritten(g)) == 1
    ensures LineCount(GroupSvg(g)) == 2
    ensures '\\' in GroupSvgAsWritten(g)
  {
    var head := "<g id=\"" + g.id + "\"" + " style=\"" + g.style.Text() + "\">";
    assert RenderAll(g.children) == [];
    assert GroupSvgAsWritten(g) == head + ("\\n" + "</g>");
    RawLineFeed(head);
    GroupLineCount(g);
  }

  /** A raw `\n` leaves a single line, with a backslash in it. */
  lemma RawLineFeed(head: string)
    requires NoNewline(head)
    ensures LineCount(head + ("\\n" + "</g>")) == 1
    ensures '\\' in head + ("\\n" + "</g>")
  {
    var s := head + ("\\n" + "</g>");
    assert s[|head|] == '\\';
    assert s[|s| - 1] == '>';
    assert NoNewline("\\n" + "</g>");
    NoNewlineHasNone(s);
  }

  lemma RenderAllSnoc(cs: seq<Drawable>, child: Drawable)
    ensures RenderAll(cs + [child]) == RenderAll(cs) + [Render(child)]
  {
    var l := RenderAll(cs + [child]);
    var r := RenderAll(cs) + [Render(child)];
    assert forall i :: 0 <= i < |cs| ==> l[i] == Render(cs[i]) == r[i];
  }

  lemma LinesSnoc(rs: seq<string>, r: string)
    ensures Lines(rs + [r]) == Lines(rs) + Entry(r)
  {
    assert (rs + [r])[..|rs|] == rs;
  }

  /** Adding a child puts its line last, before `</g>`; what was drawn
      before stays as it was. */
  lemma AddedChildIsLast(g: GroupValue, child: Drawable)
    ensures GroupSvg(g.(children := g.children + [child]))
      == Opening(g) + (Lines(RenderAll(g.children)) + Entry(Render(child))) + "</g>"
  {
    var h := g.(children := g.children + [child]);
    RenderAllSnoc(g.children, child);
    LinesSnoc(RenderAll(g.children), Render(child));
    assert Opening(h) == Opening(g);
  }

  /** The angle of the group's style never shows. */
  lemma GroupIgnoresAngle(g: GroupValue, a: real)
    ensures GroupSvg(g.(style := g.style.After(SetAngle(a)))) == GroupSvg(g)
  {
    AngleIgnored(g.style, a);
  }

  /** A new group writes `<g id="..">`, a line feed and `</g>`. */
  lemma EmptyGroup(id: string)
    ensures GroupSvg(GroupValue(id, [], EmptyStyle)) == "<g id=\"" + id + "\">\n</g>"
  {
    NewStyleIsEmpty();
    assert RenderAll([]) == [];
    assert "<g id=\"" + id + "\"" + ">\n" + "" + "</g>" == "<g id=\"" + id + "\">\n</g>";
  }

  /** The three `push_str` calls for child `i` append its line. */
  lemma EntryPushed(head: string, rs: seq<string>, i: nat)
    requires i < |rs|
    ensures head + Lines(rs[..i]) + "\t" + rs[i] + "\n" == head + Lines(rs[..i + 1])
  {
    var c := Lines(rs[..i]);
    assert rs[..i + 1][..i] == rs[..i];
    assert Lines(rs[..i + 1]) == c + ("\t" + rs[i] + "\n");
    assert head + c + "\t" + rs[i] + "\n" == head + (c + ("\t" + rs[i] + "\n"));
  }

  /** The rendering of a new circle "my_circle" at (100, cy) with radius 10,
      as the group example of tests/test_elements.rs draws two of them. */
  lemma MyCircleRender(cy: real, t: string)
    requires FormatReal(cy) == t
    ensures Render(CircleShape(CircleValue("my_circle", 100.0, cy, 10.0, EmptyStyle)))
      == "<circle" + Attr("id", "my_circle") + Attr("cx", "100") + Attr("cy", t) + Attr("r", "10") + " />"
  {
    var c := CircleValue("my_circle", 100.0, cy, 10.0, EmptyStyle);
    CircleSpelled(c);
    ClosingCases(EmptyStyle);
    FormatIntegers();
  }

  lemma MyCircleAttrs()
    ensures Attr("id", "my_circle") == " id=\"my_circle\""
    ensures Attr("cx", "100") == " cx=\"100\""
    ensures Attr("cy", "50") == " cy=\"50\""
    ensures Attr("cy", "100") == " cy=\"100\""
    ensures Attr("r", "10") == " r=\"10\""
  {
  }

  /** tests/test_elements.rs: group "my_group" holding circles at (100, 50)
      and (100, 100) is the four lines of the test. */
  lemma TwoCirclesExample()
    ensures GroupSvg(GroupValue("my_group", [CircleShape(CircleValue("my_circle", 100.0, 50.0, 10.0, EmptyStyle)),
                                             CircleShape(CircleValue("my_circle", 100.0, 100.0, 10.0, EmptyStyle))],
                                EmptyStyle))
      == "<g id=\"my_group\">\n"
         + ("\t" + ("<circle" + " id=\"my_circle\"" + " cx=\"100\"" + " cy=\"50\"" + " r=\"10\"" + " />") + "\n"
            + ("\t" + ("<circle" + " id=\"my_circle\"" + " cx=\"100\"" + " cy=\"100\"" + " r=\"10\"" + " />") + "\n"))
         + "</g>"
  {
    var d1 := CircleShape(CircleValue("my_circle", 100.0, 50.0, 10.0, EmptyStyle));
    var d2 := CircleShape(CircleValue("my_circle", 100.0, 100.0, 10.0, EmptyStyle));
    var g := GroupValue("my_group", [d1, d2], EmptyStyle);
    FormatIntegers();
    MyCircleRender(50.0, "50");
    MyCircleRender(100.0, "100");
    MyCircleAttrs();
    NewStyleIsEmpty();
    assert Opening(g) == "<g id=\"my_group\">\n";
    var r1 := Render(d1);
    var r2 := Render(d2);
    assert RenderAll(g.children) == [r1, r2];
    assert [r1, r2][..1] == [r1];
    assert [r1][..0] == [];
    assert Lines([r1, r2]) == Lines([r1]) + Entry(r2);
    assert Lines([r1]) == "" + Entry(r1);
    assert "" + Entry(r1) == Entry(r1);
  }

  /** A group whose contents its owner changes in place. */
  class Group {
    var id: string
    var children: seq<Drawable>
    var style: Style

    function Data(): GroupValue
      reads this, style
    {
      GroupValue(id, children, style.Value())
    }

    /** `Group::new`: no children, a new empty style. */
    constructor (id: string)
      ensures Data() == GroupValue(id, [], EmptyStyle)
      ensures fresh(style)
    {
      this.id := id;
      children := [];
      style := new Style();
    }

    /** `add_element`: the child goes last. */
    method AddElement(child: Drawable)
      modifies this
      ensures Data() == old(Data()).(children := old(children) + [child])
    {
      children := children + [child];
    }

    /** `to_svg`: the opening tag as src/shapes/group.rs writes it, then each
        child on its own line, then `</g>`. */
    method ToSvg() returns (s: string)
      ensures s == GroupSvgAsWritten(Data())
    {
      ghost var rs := RenderAll(children);
      var head := OpeningTag();
      s := head;
      assert rs[..0] == [];
      var i := 0;
      while i < |children|
        invariant 0 <= i <= |children|
        invariant s == head + Lines(rs[..i])
      {
        s := s + "\t";
        s := s + Render(children[i]);
        s := s + "\n";
        EntryPushed(head, rs, i);
        i := i + 1;
      }
      assert rs[..i] == rs;
      s := s + "</g>";
    }

    /** The opening `format!` and the style branch of `to_svg`. The styled
        branch pushes a raw string, so it ends with a backslash and the
        letter n rather than a line feed (see `StyledGroupAsWritten`). */
    method OpeningTag() returns (s: string)
      ensures s == OpeningAsWritten(Data())
    {
      s := "<g id=\"" + id + "\"";
      if !style.Value().IsEmpty() {
        var text := style.ToString();
        s := s + " style=\"" + text + "\">\\n";
      } else {
        s := s + ">\n";
      }
    }
  }
}
