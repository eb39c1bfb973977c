/** The connector between two mindmap nodes (src/mindmap/connector.rs): a
    group holding a "foot" path on each node, facing the other node, and a
    four-sided edge path joining the ankles of the two feet. */
module Connectors {
  import opened Text
  import opened Styling
  import opened Paths
  import opened PathCommands
  import opened Nodes
  import opened Groups
  import opened Geometry

  /** A segment from (x1, y1) to (x2, y2). */
  datatype Segment = Segment(x1: real, y1: real, x2: real, y2: real)

  /** The segment from (px - dx, py - dy) to (px + dx, py + dy). */
  function Centred(px: real, py: real, dx: real, dy: real): (seg: Segment)
    ensures seg.x1 + seg.x2 == 2.0 * px && seg.y1 + seg.y2 == 2.0 * py
    ensures seg.x2 - seg.x1 == 2.0 * dx && seg.y2 - seg.y1 == 2.0 * dy
  {
    Segment(px - dx, py - dy, px + dx, py + dy)
  }

  /** `calculate_perpendicular_segment`: the segment of length `l` centred
      on (px, py) along the vector (-vy, vx) divided by the length of
      (vx, vy). When that length is 0 the division yields no finite
      endpoints, which is `None` here. The endpoints are always symmetric
      about (px, py). */
  function PerpendicularSegment(m: Math, vx: real, vy: real, px: real, py: real, l: real): (seg: Option<Segment>)
    ensures seg.Some? ==> seg.value.x1 + seg.value.x2 == 2.0 * px && seg.value.y1 + seg.value.y2 == 2.0 * py
  {
    var magnitude := m.sqrt(SumOfSquares(vx, vy));
    if magnitude == 0.0 then None
    else
      var ux := -vy / magnitude;
      var uy := vx / magnitude;
      var half := l / 2.0;
      Some(Centred(px, py, half * ux, half * uy))
  }

  /** Twice half of `l` along v / magnitude is v times l / magnitude. */
  lemma HalfScaled(l: real, v: real, magnitude: real)
    requires magnitude != 0.0
    ensures 2.0 * ((l / 2.0) * (v / magnitude)) == v * (l / magnitude)
  {
  }

  /** The vector from the first end to the second is (-vy, vx) times
      l / magnitude. */
  lemma PerpendicularSpan(m: Math, vx: real, vy: real, px: real, py: real, l: real)
    requires PerpendicularSegment(m, vx, vy, px, py, l).Some?
    ensures var s := PerpendicularSegment(m, vx, vy, px, py, l).value;
      var k := l / m.sqrt(SumOfSquares(vx, vy));
      s.x2 - s.x1 == -vy * k && s.y2 - s.y1 == vx * k
  {
    var magnitude := m.sqrt(SumOfSquares(vx, vy));
    var half := l / 2.0;
    var ux := -vy / magnitude;
    var uy := vx / magnitude;
    assert PerpendicularSegment(m, vx, vy, px, py, l).value == Centred(px, py, half * ux, half * uy);
    HalfScaled(l, -vy, magnitude);
    HalfScaled(l, vx, magnitude);
  }

  /** The segment exists exactly when (vx, vy) is not the zero vector. */
  lemma PerpendicularDefined(m: Math, vx: real, vy: real, px: real, py: real, l: real)
    requires m.Valid()
    ensures PerpendicularSegment(m, vx, vy, px, py, l).Some? <==> SumOfSquares(vx, vy) != 0.0
  {
    var d := SumOfSquares(vx, vy);
    var magnitude := m.sqrt(d);
    assert magnitude * magnitude == d;
  }

  /** The segment is orthogonal to (vx, vy). */
  lemma PerpendicularOrthogonal(m: Math, vx: real, vy: real, px: real, py: real, l: real)
    requires PerpendicularSegment(m, vx, vy, px, py, l).Some?
    ensures var s := PerpendicularSegment(m, vx, vy, px, py, l).value;
      (s.x2 - s.x1) * vx + (s.y2 - s.y1) * vy == 0.0
  {
    var k := l / m.sqrt(SumOfSquares(vx, vy));
    PerpendicularSpan(m, vx, vy, px, py, l);
    calc {
      (-vy * k) * vx + (vx * k) * vy;
      k * (vx * vy - vx * vy);
      0.0;
    }
  }

  /** The segment is `l` long. */
  lemma PerpendicularLength(m: Math, vx: real, vy: real, px: real, py: real, l: real)
    requires m.Valid() && PerpendicularSegment(m, vx, vy, px, py, l).Some?
    ensures var s := PerpendicularSegment(m, vx, vy, px, py, l).value;
      SquaredDistance((s.x2, s.y2), (s.x1, s.y1)) == l * l
  {
    var d := SumOfSquares(vx, vy);
    assert m.sqrt(d) * m.sqrt(d) == d;
    SpanLength(m, vx, vy, px, py, l);
  }

  lemma SpanLength(m: Math, vx: real, vy: real, px: real, py: real, l: real)
    requires PerpendicularSegment(m, vx, vy, px, py, l).Some?
    requires m.sqrt(SumOfSquares(vx, vy)) * m.sqrt(SumOfSquares(vx, vy)) == SumOfSquares(vx, vy)
    ensures var s := PerpendicularSegment(m, vx, vy, px, py, l).value;
      SquaredDistance((s.x2, s.y2), (s.x1, s.y1)) == l * l
  {
    var magnitude := m.sqrt(SumOfSquares(vx, vy));
    var k := l / magnitude;
    assert k * magnitude == l;
    PerpendicularSpan(m, vx, vy, px, py, l);
    var s := PerpendicularSegment(m, vx, vy, px, py, l).value;
    assert SquaredDistance((s.x2, s.y2), (s.x1, s.y1)) == SumOfSquares(-vy * k, vx * k);
    RotatedLength(vx, vy, k, magnitude, l);
  }

  /** (-vy, vx) scaled by k has length k times that of (vx, vy). */
  lemma RotatedLength(vx: real, vy: real, k: real, magnitude: real, l: real)
    requires magnitude * magnitude == SumOfSquares(vx, vy) && k * magnitude == l
    ensures SumOfSquares(-vy * k, vx * k) == l * l
  {
    calc {
      SumOfSquares(-vy * k, vx * k);
      (-vy * k) * (-vy * k) + (vx * k) * (vx * k);
      k * k * (vx * vx + vy * vy);
      k * k * (magnitude * magnitude);
      (k * magnitude) * (k * magnitude);
      l * l;
    }
  }

  /** The leg vector (cos d, sin d) has length 1. */
  lemma LegIsUnit(m: Math, direction: real)
    requires m.Valid()
    ensures m.sqrt(SumOfSquares(m.cos(direction), m.sin(direction))) == 1.0
  {
    assert SumOfSquares(m.cos(direction), m.sin(direction)) == 1.0;
  }

  /** `ankle_endpoints`: the segment of width `barWidth` across the leg,
      centred on the ankle midpoint 1.5 radii from the centre in the
      direction of the foot. The leg vector has length 1, so the division
      is always defined. */
  function AnkleEndpoints(m: Math, cx: real, cy: real, r: real, direction: real, barWidth: real): Segment
    requires m.Valid()
  {
    var mid := PolarToCartesian(m, FootLengthRadiusFraction * r, direction, cx, cy);
    LegIsUnit(m, direction);
    PerpendicularSegment(m, m.cos(direction), m.sin(direction), mid.0, mid.1, barWidth).value
  }

  /** The ankle is centred on the point 1.5 radii along the direction, is
      `barWidth` wide and lies across the leg. */
  lemma AnkleGeometry(m: Math, cx: real, cy: real, r: real, direction: real, barWidth: real)
    requires m.Valid()
    ensures var a := AnkleEndpoints(m, cx, cy, r, direction, barWidth);
      var mid := PolarToCartesian(m, FootLengthRadiusFraction * r, direction, cx, cy);
      && a.x1 + a.x2 == 2.0 * mid.0 && a.y1 + a.y2 == 2.0 * mid.1
      && SquaredDistance((a.x2, a.y2), (a.x1, a.y1)) == barWidth * barWidth
      && (a.x2 - a.x1) * m.cos(direction) + (a.y2 - a.y1) * m.sin(direction) == 0.0
  {
    var mid := PolarToCartesian(m, FootLengthRadiusFraction * r, direction, cx, cy);
    LegIsUnit(m, direction);
    PerpendicularLength(m, m.cos(direction), m.sin(direction), mid.0, mid.1, barWidth);
    PerpendicularOrthogonal(m, m.cos(direction), m.sin(direction), mid.0, mid.1, barWidth);
  }

  /** The ankle midpoint is 1.5 radii from the centre of the node. */
  lemma AnkleDistance(m: Math, cx: real, cy: real, r: real, direction: real, barWidth: real)
    requires m.Valid()
    ensures var a := AnkleEndpoints(m, cx, cy, r, direction, barWidth);
      SquaredDistance(((a.x1 + a.x2) / 2.0, (a.y1 + a.y2) / 2.0), (cx, cy))
        == (FootLengthRadiusFraction * r) * (FootLengthRadiusFraction * r)
  {
    var a := AnkleEndpoints(m, cx, cy, r, direction, barWidth);
    var mid := PolarToCartesian(m, FootLengthRadiusFraction * r, direction, cx, cy);
    AnkleGeometry(m, cx, cy, r, direction, barWidth);
    assert ((a.x1 + a.x2) / 2.0, (a.y1 + a.y2) / 2.0) == mid;
    PolarDistance(m, FootLengthRadiusFraction * r, direction, cx, cy);
  }

  /** src/mindmap/connector.rs: the ankle of a node of radius 10 at the
      origin, facing along the x axis, 2 wide, runs from (15, -1) to
      (15, 1). */
  lemma AnkleExample(m: Math)
    requires m.Valid()
    ensures AnkleEndpoints(m, 0.0, 0.0, 10.0, 0.0, 2.0) == Segment(15.0, -1.0, 15.0, 1.0)
  {
    LegIsUnit(m, 0.0);
    assert SumOfSquares(1.0, 0.0) == 1.0;
    assert PolarToCartesian(m, FootLengthRadiusFraction * 10.0, 0.0, 0.0, 0.0) == (15.0, 0.0);
  }

  /** The commands of `foot_path`: from the first ankle end, a cubic curve
      to the first toe, an arc of the node's radius to the second toe, and
      a cubic curve back to the second ankle end. The toes lie on the node's
      circle half the foot angle either side of the direction. */
  function FootCommands(m: Math, cx: real, cy: real, r: real, direction: real, footAngle: real, barWidth: real): (cmds: seq<Command>)
    requires m.Valid()
    ensures |cmds| == 4
  {
    var toe1 := PolarToCartesian(m, r, direction - 0.5 * footAngle, cx, cy);
    var toe2 := PolarToCartesian(m, r, direction + 0.5 * footAngle, cx, cy);
    var ankle := AnkleEndpoints(m, cx, cy, r, direction, barWidth);
    var c1 := PolarToCartesian(m, 0.15 * r, direction + Pi / 2.5, toe1.0, toe1.1);
    var c2 := PolarToCartesian(m, 0.25 * r, direction + Pi, ankle.x1, ankle.y1);
    var c3 := PolarToCartesian(m, 0.15 * r, direction - Pi / 2.5, toe2.0, toe2.1);
    var c4 := PolarToCartesian(m, 0.25 * r, direction + Pi, ankle.x2, ankle.y2);
    [MoveTo(ankle.x1, ankle.y1),
     CurveTo(c2.0, c2.1, c1.0, c1.1, toe1.0, toe1.1),
     ArcTo(r, r, 0.0, false, true, toe2.0, toe2.1),
     CurveTo(c3.0, c3.1, c4.0, c4.1, ankle.x2, ankle.y2)]
  }

  /** `foot_path`: a path with an empty id built from the foot commands. */
  function FootPath(m: Math, cx: real, cy: real, r: real, direction: real, footAngle: real, barWidth: real): PathValue
    requires m.Valid()
  {
    Built("", FootCommands(m, cx, cy, r, direction, footAngle, barWidth))
  }

  /** A foot is a move, a cubic curve, an arc and a cubic curve. It starts
      and ends at the ends of its ankle, and its arc has the node's radius
      on both axes, no rotation, the small arc and the positive sweep. */
  lemma FootShape(m: Math, cx: real, cy: real, r: real, direction: real, footAngle: real, barWidth: real)
    requires m.Valid()
    ensures var cmds := FootCommands(m, cx, cy, r, direction, footAngle, barWidth);
      var a := AnkleEndpoints(m, cx, cy, r, direction, barWidth);
      && Letters(cmds) == "MCAC"
      && cmds[0].x == a.x1 && cmds[0].y == a.y1
      && cmds[3].x == a.x2 && cmds[3].y == a.y2
      && cmds[2] == ArcTo(r, r, 0.0, false, true, cmds[2].x, cmds[2].y)
  {
  }

  /** Both toes lie on the node's circle: the arc between them runs along
      the rim of the node. */
  lemma ToesOnRim(m: Math, cx: real, cy: real, r: real, direction: real, footAngle: real, barWidth: real)
    requires m.Valid()
    ensures var cmds := FootCommands(m, cx, cy, r, direction, footAngle, barWidth);
      && SquaredDistance((cmds[1].x, cmds[1].y), (cx, cy)) == r * r
      && SquaredDistance((cmds[2].x, cmds[2].y), (cx, cy)) == r * r
  {
    var cmds := FootCommands(m, cx, cy, r, direction, footAngle, barWidth);
    assert (cmds[1].x, cmds[1].y) == PolarToCartesian(m, r, direction - 0.5 * footAngle, cx, cy);
    assert (cmds[2].x, cmds[2].y) == PolarToCartesian(m, r, direction + 0.5 * footAngle, cx, cy);
    PolarDistance(m, r, direction - 0.5 * footAngle, cx, cy);
    PolarDistance(m, r, direction + 0.5 * footAngle, cx, cy);
  }

  /** The edge outline: A's first ankle end, B's second, B's first, A's
      second, closed. */
  function EdgeCommands(ankleA: Segment, ankleB: Segment): seq<Command> {
    [MoveTo(ankleA.x1, ankleA.y1), LineTo(ankleB.x2, ankleB.y2), LineTo(ankleB.x1, ankleB.y1),
     LineTo(ankleA.x2, ankleA.y2), Close]
  }

  /** The direction of node b as seen from node a. */
  function Direction(m: Math, a: NodeValue, b: NodeValue): real {
    CartesianToPolar(m, a.cx, a.cy, b.cx, b.cy).1
  }

  /** The commands of A's foot, which faces b. */
  function FootACommands(m: Math, a: NodeValue, b: NodeValue, footAngleDeg: real, barWidth: real): seq<Command>
    requires m.Valid()
  {
    FootCommands(m, a.cx, a.cy, a.radius, Direction(m, a, b), ToRadians(footAngleDeg), barWidth)
  }

  /** The commands of B's foot, which faces the opposite way, π further
      round. */
  function FootBCommands(m: Math, a: NodeValue, b: NodeValue, footAngleDeg: real, barWidth: real): seq<Command>
    requires m.Valid()
  {
    FootCommands(m, b.cx, b.cy, b.radius, Pi + Direction(m, a, b), ToRadians(footAngleDeg), barWidth)
  }

  /** The commands of the edge between the two ankles. */
  function EdgeOf(m: Math, a: NodeValue, b: NodeValue, barWidth: real): seq<Command>
    requires m.Valid()
  {
    var theta := Direction(m, a, b);
    EdgeCommands(AnkleEndpoints(m, a.cx, a.cy, a.radius, theta, barWidth),
      AnkleEndpoints(m, b.cx, b.cy, b.radius, Pi + theta, barWidth))
  }

  /** `connector`: the group `c:{a}:{b}` holding A's foot, B's foot and the
      edge `b:{a}:{b}`, in that order. */
  function Connector(m: Math, a: NodeValue, b: NodeValue, footAngleDeg: real, barWidth: real): (g: GroupValue)
    requires m.Valid()
    // These ensures unfold the body for the proofs; ConnectorStructure states what it means.
    ensures g.id == "c:" + a.id + ":" + b.id && g.style == EmptyStyle
    ensures g.children == [PathShape(Built("", FootACommands(m, a, b, footAngleDeg, barWidth))),
      PathShape(Built("", FootBCommands(m, a, b, footAngleDeg, barWidth))),
      PathShape(Built("b:" + a.id + ":" + b.id, EdgeOf(m, a, b, barWidth)))]
  {
    GroupValue("c:" + a.id + ":" + b.id,
      [PathShape(Built("", FootACommands(m, a, b, footAngleDeg, barWidth))),
       PathShape(Built("", FootBCommands(m, a, b, footAngleDeg, barWidth))),
       PathShape(Built("b:" + a.id + ":" + b.id, EdgeOf(m, a, b, barWidth)))],
      EmptyStyle)
  }

  /** The connector is the group `c:{a}:{b}` with an empty style and three
      paths: A's foot, drawn about a towards b with the foot angle in
      radians; B's foot, drawn about b in the opposite direction (θ + π);
      and the edge `b:{a}:{b}`. The feet have empty ids and the commands
      M C A C, the edge the commands M L L L Z. */
  lemma ConnectorStructure(m: Math, a: NodeValue, b: NodeValue, footAngleDeg: real, barWidth: real)
    requires m.Valid()
    ensures var g := Connector(m, a, b, footAngleDeg, barWidth);
      var theta := Direction(m, a, b);
      var footAngle := ToRadians(footAngleDeg);
      && g.id == "c:" + a.id + ":" + b.id && g.style.IsEmpty()
      && |g.children| == 3
      && g.children[0] == PathShape(FootPath(m, a.cx, a.cy, a.radius, theta, footAngle, barWidth))
      && g.children[1] == PathShape(FootPath(m, b.cx, b.cy, b.radius, Pi + theta, footAngle, barWidth))
      && g.children[2] == PathShape(Built("b:" + a.id + ":" + b.id, EdgeOf(m, a, b, barWidth)))
      && g.children[0].path.id == "" && g.children[1].path.id == ""
      && Letters(FootCommands(m, a.cx, a.cy, a.radius, theta, footAngle, barWidth)) == "MCAC"
      && Letters(FootCommands(m, b.cx, b.cy, b.radius, Pi + theta, footAngle, barWidth)) == "MCAC"
      && Letters(EdgeOf(m, a, b, barWidth)) == "MLLLZ"
  {
    ConnectorGroup(m, a, b, footAngleDeg, barWidth);
    ConnectorFeet(m, a, b, footAngleDeg, barWidth);
    ConnectorLetters(m, a, b, footAngleDeg, barWidth);
  }

  /** The connector is the group `c:{a}:{b}` with an empty style, three
      children, two of them with empty ids, and the edge last. */
  lemma ConnectorGroup(m: Math, a: NodeValue, b: NodeValue, footAngleDeg: real, barWidth: real)
    requires m.Valid()
    ensures var g := Connector(m, a, b, footAngleDeg, barWidth);
      && g.id == "c:" + a.id + ":" + b.id && g.style.IsEmpty()
      && |g.children| == 3
      && g.children[2] == PathShape(Built("b:" + a.id + ":" + b.id, EdgeOf(m, a, b, barWidth)))
      && g.children[0].path.id == "" && g.children[1].path.id == ""
  {
    NewStyleIsEmpty();
  }

  /** The connector's first two children are the feet of a and b, drawn as
      `foot_path` draws them. */
  lemma ConnectorFeet(m: Math, a: NodeValue, b: NodeValue, footAngleDeg: real, barWidth: real)
    requires m.Valid()
    ensures var g := Connector(m, a, b, footAngleDeg, barWidth);
      var theta := Direction(m, a, b);
      var footAngle := ToRadians(footAngleDeg);
      && g.children[0] == PathShape(FootPath(m, a.cx, a.cy, a.radius, theta, footAngle, barWidth))
      && g.children[1] == PathShape(FootPath(m, b.cx, b.cy, b.radius, Pi + theta, footAngle, barWidth))
  {
    var theta := Direction(m, a, b);
    var footAngle := ToRadians(footAngleDeg);
    assert FootACommands(m, a, b, footAngleDeg, barWidth)
      == FootCommands(m, a.cx, a.cy, a.radius, theta, footAngle, barWidth);
    assert FootBCommands(m, a, b, footAngleDeg, barWidth)
      == FootCommands(m, b.cx, b.cy, b.radius, Pi + theta, footAngle, barWidth);
  }

  lemma ConnectorLetters(m: Math, a: NodeValue, b: NodeValue, footAngleDeg: real, barWidth: real)
    requires m.Valid()
    ensures var theta := Direction(m, a, b);
      var footAngle := ToRadians(footAngleDeg);
      && Letters(FootCommands(m, a.cx, a.cy, a.radius, theta, footAngle, barWidth)) == "MCAC"
      && Letters(FootCommands(m, b.cx, b.cy, b.radius, Pi + theta, footAngle, barWidth)) == "MCAC"
      && Letters(EdgeOf(m, a, b, barWidth)) == "MLLLZ"
  {
    var theta := Direction(m, a, b);
    var footAngle := ToRadians(footAngleDeg);
    FootShape(m, a.cx, a.cy, a.radius, theta, footAngle, barWidth);
    FootShape(m, b.cx, b.cy, b.radius, Pi + theta, footAngle, barWidth);
    EdgeJoinsFeet(m, a, b, footAngleDeg, barWidth);
  }

  /** The edge is an M L L L Z outline through the ends of both feet: it
      starts where A's foot starts, goes to where B's foot ends, to where
      B's foot starts, to where A's foot ends, and closes. */
  lemma EdgeJoinsFeet(m: Math, a: NodeValue, b: NodeValue, footAngleDeg: real, barWidth: real)
    requires m.Valid()
    ensures var fa := FootACommands(m, a, b, footAngleDeg, barWidth);
      var fb := FootBCommands(m, a, b, footAngleDeg, barWidth);
      var e := EdgeOf(m, a, b, barWidth);
      && Letters(e) == "MLLLZ"
      && e[0].x == fa[0].x && e[0].y == fa[0].y
      && e[1].x == fb[3].x && e[1].y == fb[3].y
      && e[2].x == fb[0].x && e[2].y == fb[0].y
      && e[3].x == fa[3].x && e[3].y == fa[3].y
  {
    var theta := Direction(m, a, b);
    var footAngle := ToRadians(footAngleDeg);
    FootShape(m, a.cx, a.cy, a.radius, theta, footAngle, barWidth);
    FootShape(m, b.cx, b.cy, b.radius, Pi + theta, footAngle, barWidth);
    var e := EdgeOf(m, a, b, barWidth);
    assert Letters(e) == "MLLLZ";
  }

  /** A's foot faces b: going the distance between the centres from a in
      A's direction arrives at b. */
  lemma FeetFaceEachOther(m: Math, a: NodeValue, b: NodeValue)
    requires m.Valid()
    ensures PolarToCartesian(m, CartesianToPolar(m, a.cx, a.cy, b.cx, b.cy).0, Direction(m, a, b), a.cx, a.cy)
      == (b.cx, b.cy)
  {
    CartesianRoundTrip(m, a.cx, a.cy, b.cx, b.cy);
  }

  /** A built path whose id holds no line feed is drawn on one line. */
  lemma BuiltLine(id: string, cmds: seq<Command>)
    requires NoNewline(id)
    ensures LineCount(Built(id, cmds).Svg()) == 1
  {
    CommandsTextNoNewline(cmds);
    NewStyleIsEmpty();
    PathLine(Built(id, cmds));
  }

  /** A connector between nodes whose ids hold no line feed is five lines:
      the opening, the three paths and `</g>`. */
  lemma ConnectorLineCount(m: Math, a: NodeValue, b: NodeValue, footAngleDeg: real, barWidth: real)
    requires m.Valid() && NoNewline(a.id) && NoNewline(b.id)
    ensures LineCount(GroupSvg(Connector(m, a, b, footAngleDeg, barWidth))) == 5
  {
    var fa := FootACommands(m, a, b, footAngleDeg, barWidth);
    var fb := FootBCommands(m, a, b, footAngleDeg, barWidth);
    var e := EdgeOf(m, a, b, barWidth);
    var edgeId := "b:" + a.id + ":" + b.id;
    assert NoNewline(edgeId);
    assert NoNewline("c:" + a.id + ":" + b.id);
    BuiltLine("", fa);
    BuiltLine("", fb);
    BuiltLine(edgeId, e);
    ThreePathGroup(Connector(m, a, b, footAngleDeg, barWidth), Built("", fa), Built("", fb), Built(edgeId, e));
  }

  /** An unstyled group of three one-line paths is five lines. */
  lemma ThreePathGroup(g: GroupValue, p0: PathValue, p1: PathValue, p2: PathValue)
    requires NoNewline(g.id) && g.style == EmptyStyle
    requires g.children == [PathShape(p0), PathShape(p1), PathShape(p2)]
    requires LineCount(p0.Svg()) == 1 && LineCount(p1.Svg()) == 1 && LineCount(p2.Svg()) == 1
    ensures LineCount(GroupSvg(g)) == 5
  {
    NewStyleIsEmpty();
    GroupLineCount(g);
    RenderThreePaths(p0, p1, p2);
    ThreeSingleLines(p0.Svg(), p1.Svg(), p2.Svg());
  }

  lemma RenderThreePaths(p0: PathValue, p1: PathValue, p2: PathValue)
    ensures RenderAll([PathShape(p0), PathShape(p1), PathShape(p2)]) == [p0.Svg(), p1.Svg(), p2.Svg()]
  {
    var rs := RenderAll([PathShape(p0), PathShape(p1), PathShape(p2)]);
    assert rs[0] == Render(PathShape(p0)) == p0.Svg();
    assert rs[1] == Render(PathShape(p1)) == p1.Svg();
    assert rs[2] == Render(PathShape(p2)) == p2.Svg();
  }

  lemma ThreeSingleLines(r0: string, r1: string, r2: string)
    requires LineCount(r0) == 1 && LineCount(r1) == 1 && LineCount(r2) == 1
    ensures LineTotal([r0, r1, r2]) == 3
  {
    var rs := [r0, r1, r2];
    forall i | 0 <= i < |rs|
      ensures LineCount(rs[i]) == 1
    {
    }
    LineTotalUniform(rs, 1);
  }
}
