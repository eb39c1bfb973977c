/** The drawing commands of a path built step by step (`move_to`,
    `line_to`, `curve_to`, `elliptical_arc_to`, `close`), as the mindmap
    connectors build their paths. Each command is written as its SVG letter
    and its numbers, each followed by a space, as the builder's output in
    tests/test_elements.rs shows for M, L and Z. */
module PathCommands {
  import opened Text
  import opened Styling
  import opened Paths

  datatype Command =
    | MoveTo(x: real, y: real)
    | LineTo(x: real, y: real)
    | CurveTo(x1: real, y1: real, x2: real, y2: real, x: real, y: real)
    | ArcTo(rx: real, ry: real, rotation: real, largeArc: bool, sweep: bool, x: real, y: real)
    | Close
  {
    /** The SVG letter of the command. */
    function Letter(): char {
      match this
      case MoveTo(_, _) => 'M'
      case LineTo(_, _) => 'L'
      case CurveTo(_, _, _, _, _, _) => 'C'
      case ArcTo(_, _, _, _, _, _, _) => 'A'
      case Close => 'Z'
    }

    /** The numbers of the command, in writing order. */
    function Numbers(): seq<real> {
      match this
      case MoveTo(x, y) => [x, y]
      case LineTo(x, y) => [x, y]
      case CurveTo(x1, y1, x2, y2, x, y) => [x1, y1, x2, y2, x, y]
      case ArcTo(rx, ry, rotation, largeArc, sweep, x, y) =>
        [rx, ry, rotation, if largeArc then 1.0 else 0.0, if sweep then 1.0 else 0.0, x, y]
      case Close => []
    }
  }

  /** Each number followed by a space. */
  function NumbersText(ns: seq<real>): string {
    if ns == [] then "" else NumbersText(ns[..|ns| - 1]) + FormatReal(ns[|ns| - 1]) + " "
  }

  /** One command: its letter, a space, then its numbers. */
  function CommandText(c: Command): string {
    [c.Letter()] + " " + NumbersText(c.Numbers())
  }

  /** The `d` text of a built path: the commands one after another. */
  function CommandsText(cmds: seq<Command>): string {
    if cmds == [] then "" else CommandsText(cmds[..|cmds| - 1]) + CommandText(cmds[|cmds| - 1])
  }

  /** The letters of the commands, in order. */
  function Letters(cmds: seq<Command>): (ls: string)
    // This ensures unfolds the body for the proofs that index the letters.
    ensures |ls| == |cmds| && forall i :: 0 <= i < |cmds| ==> ls[i] == cmds[i].Letter()
  {
    seq(|cmds|, i requires 0 <= i < |cmds| => cmds[i].Letter())
  }

  /** `Path::new(id)` followed by the builder calls: a path with an empty
      style whose `d` is the commands' text. */
  function Built(id: string, cmds: seq<Command>): (p: PathValue)
    ensures p.id == id && p.style == EmptyStyle
  {
    PathValue(id, CommandsText(cmds), EmptyStyle)
  }

  lemma {:induction false} NumbersTextNoNewline(ns: seq<real>)
    ensures NoNewline(NumbersText(ns))
  {
    if ns != [] {
      NumbersTextNoNewline(ns[..|ns| - 1]);
      var f := FormatReal(ns[|ns| - 1]);
      assert forall i :: 0 <= i < |f| ==> f[i] != '\n';
    }
  }

  /** The text of any command list is a single line. */
  lemma {:induction false} CommandsTextNoNewline(cmds: seq<Command>)
    ensures NoNewline(CommandsText(cmds))
  {
    if cmds != [] {
      CommandsTextNoNewline(cmds[..|cmds| - 1]);
      NumbersTextNoNewline(cmds[|cmds| - 1].Numbers());
    }
  }

  /** Building with one more command appends that command's text. */
  lemma CommandsTextSnoc(cmds: seq<Command>, c: Command)
    ensures CommandsText(cmds + [c]) == CommandsText(cmds) + CommandText(c)
  {
    assert (cmds + [c])[..|cmds|] == cmds;
  }

  lemma PointText(x: real, y: real)
    ensures NumbersText([x, y]) == FormatReal(x) + " " + FormatReal(y) + " "
  {
    assert [x, y][..1] == [x];
    assert [x][..0] == [];
    assert NumbersText([x]) == "" + FormatReal(x) + " ";
    assert "" + FormatReal(x) + " " == FormatReal(x) + " ";
  }

  lemma PointCommandText(c: Command)
    requires c.MoveTo? || c.LineTo?
    ensures CommandText(c) == [c.Letter()] + " " + FormatReal(c.x) + " " + FormatReal(c.y) + " "
  {
    PointText(c.x, c.y);
  }

  lemma MoveText()
    ensures CommandText(MoveTo(100.0, 100.0)) == "M 100 100 "
  {
    FormatIntegers();
    PointCommandText(MoveTo(100.0, 100.0));
  }

  lemma FirstLineText()
    ensures CommandText(LineTo(300.0, 100.0)) == "L 300 100 "
  {
    FormatIntegers();
    PointCommandText(LineTo(300.0, 100.0));
  }

  lemma SecondLineText()
    ensures CommandText(LineTo(200.0, 300.0)) == "L 200 300 "
  {
    FormatIntegers();
    PointCommandText(LineTo(200.0, 300.0));
  }

  /** tests/test_elements.rs: move to (100, 100), lines to (300, 100) and
      (200, 300), close: "M 100 100 L 300 100 L 200 300 Z ". */
  lemma TriangleText()
    ensures CommandsText([MoveTo(100.0, 100.0), LineTo(300.0, 100.0), LineTo(200.0, 300.0), Close])
      == "M 100 100 " + "L 300 100 " + "L 200 300 " + "Z "
  {
    FourCommands(MoveTo(100.0, 100.0), LineTo(300.0, 100.0), LineTo(200.0, 300.0), Close);
    MoveText();
    FirstLineText();
    SecondLineText();
    assert CommandText(Close) == "Z ";
  }

  lemma FourCommands(c0: Command, c1: Command, c2: Command, c3: Command)
    ensures CommandsText([c0, c1, c2, c3]) == CommandText(c0) + CommandText(c1) + CommandText(c2) + CommandText(c3)
  {
    CommandsTextSnoc([], c0);
    assert [] + [c0] == [c0];
    CommandsTextSnoc([c0], c1);
    assert [c0] + [c1] == [c0, c1];
    CommandsTextSnoc([c0, c1], c2);
    assert [c0, c1] + [c2] == [c0, c1, c2];
    CommandsTextSnoc([c0, c1, c2], c3);
    assert [c0, c1, c2] + [c3] == [c0, c1, c2, c3];
    assert CommandsText([c0]) == CommandText(c0);
  }
}
