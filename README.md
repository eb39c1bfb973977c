# visualife in Dafny

visualife is a small Rust library that writes SVG markup. The model covers:

- **Colours.** The colour helpers convert an RGB triple to `#RRGGBB` text and back, and make a colour darker or lighter.
- **Styles.** The `Style` record holds six optional presentation attributes and a rotation angle. It is written as `key:value;` entries in a fixed key order.
- **Shapes.** `Circle`, `Rect`, `Path` and `Group` each render as SVG text. A group holds ordered children and writes one child per line.
- **Mindmaps.** A mindmap places and grows nodes and records connections between them. It draws every node as a circle and every connection as a connector.
- **Connectors.** A connector is a group of two "feet" and an edge. Each foot is a path hugging one node. The edge joins the ankles of the two feet.

The model has one Dafny module per source file. Every module has the same two layers:

- **Values.** Each entity is a datatype (`StyleValue`, `CircleValue`, `GroupValue`, `MindmapValue`, …), and each operation is a function on it.
- **Classes.** Where the source changes an object in place, a class holds the same fields. Its constructor and methods are proved to produce exactly the value that the functions compute.

Other modelling choices:

- f32 numbers are reals.
- The math library (`cos`, `sin`, `sqrt`, `atan2`) is a parameter `m: Math`. Only the facts in `Math.Valid` are known about it.
- A panic is an explicit outcome: `Panic`, `None` or `false`.
- `Box<dyn ToSvg>` is the closed datatype `Groups.Drawable`.

## Model

| member | source | states |
|---|---|---|
| Text.UpperHexRoundTrip | src/style.rs:3 | the `{:X}` digits of any number read back, in base 16, as that number |
| Text.Hex02 | src/colors.rs:3 | `{:02X}` yields two upper-case digits below 256 and all the digits otherwise, and they read back as the number |
| Text.FormatIntegers | tests/test_elements.rs:8-9 | `{}` writes integral values without a fractional part (100.0 as "100", -1.0 as "-1") |
| Text.SingleLine | tests/test_mindmap.rs:12 | a non-empty text without a line feed counts as one line for `lines().count()` |
| Colors.RgbToHex | src/colors.rs:2-4 | the text is 7 characters long: `#`, then two upper-case hex digits each for r, g and b in that order, each pair reading back as its component |
| Colors.HexToRgb | src/colors.rs:7-17 | the model of `hex_to_rgb`; Colors.FormatErrorExactly, Colors.AsciiSlicesInOrder, Colors.RgbRoundTrip, Colors.ParseThenWriteUppercases, Colors.PlusSignAccepted and Colors.SliceInsideCharacterPanics state it |
| Colors.FormatErrorExactly | src/colors.rs:8-10 | `hex_to_rgb` returns the format error exactly when the text is not 7 bytes long or does not start with `#` |
| Colors.AsciiSlicesInOrder | src/colors.rs:12-16 | for ASCII input of the right shape, the components come from the slices [1..3], [3..5] and [5..7]; a red failure is reported before green, and green before blue; the result is Ok exactly when all three parse |
| Colors.RgbRoundTrip | src/colors.rs:2-17 | `hex_to_rgb(rgb_to_hex(r, g, b)) == Ok((r, g, b))` for every byte triple |
| Colors.ParseThenWriteUppercases | src/colors.rs:7-17 | for `#` plus six hex digits of either case, writing the parsed triple back gives the input in upper case |
| Colors.PlusSignAccepted | src/colors.rs:12-14 | `u8::from_str_radix` accepts `+F`, so `#+F+F+F` parses as (15, 15, 15) |
| Colors.SliceInsideCharacterPanics | src/colors.rs:8-12 | a 7-byte text whose slice boundary falls inside a two-byte character passes the length check and then panics |
| Colors.ErrorPrecedence | src/colors.rs:21-25 | a fraction outside [0, 1] is reported by `darker` and `lighter` whatever the colour is; with a valid fraction, a bad colour yields `hex_to_rgb`'s error (or panic) unchanged |
| Colors.Darker | src/colors.rs:20-32 | the model of `darker`; Colors.DarkerOk, Colors.DarkerReadBack, Colors.DarkerNeverIncreases and Colors.ErrorPrecedence state it |
| Colors.DarkerOk | src/colors.rs:20-32 | `darker` succeeds exactly when the fraction and the colour are valid, and then writes each component scaled by 1 - fraction |
| Colors.Lighter | src/colors.rs:35-47 | the model of `lighter`; Colors.LighterOk, Colors.LighterReadBack and Colors.LighterNeverDecreases state it |
| Colors.LighterOk | src/colors.rs:35-47 | `lighter` succeeds exactly when the fraction and the colour are valid, and then writes each component scaled by 1 + fraction |
| Colors.DarkerReadBack | src/colors.rs:25-31 | the darker colour parses back to the scaled triple |
| Colors.DarkerNeverIncreases | src/colors.rs:27-29 | no component of the darker colour exceeds the original's |
| Colors.LighterReadBack | src/colors.rs:40-46 | the lighter colour parses back to the scaled triple |
| Colors.LighterNeverDecreases | src/colors.rs:42-44 | no component of the lighter colour is below the original's, and one whose product reaches 255 is clamped to 255 |
| Colors.ScaleDown | src/colors.rs:27 | clamping and truncating a product with a factor in [0, 1] never increases the component |
| Colors.ScaleUp | src/colors.rs:42 | with a factor of at least 1 the component never decreases and saturates at 255 |
| Styling.RgbToHex | src/style.rs:2-4 | `#` and upper-case hex digits; the text is 7 characters long exactly when every component is below 256 |
| Styling.RgbToHexAgrees | src/style.rs:2-4 | for byte-sized components the u16 variant writes what `colors::rgb_to_hex` writes, so `hex_to_rgb` reads it back |
| Styling.WideComponent | src/style.rs:3 | a component of 256 takes three digits: (256, 0, 0) is `#1000000` |
| Styling.TextIsJoinedEntries | src/style.rs:58-86 | the serialised text is the set entries written one after another |
| Styling.EntriesInKeyOrder | src/style.rs:61-83 | the entries are in strictly increasing key order (fill, stroke, stroke-width, opacity, fill-opacity, stroke-opacity) |
| Styling.EntriesCarryValues | src/style.rs:61-83 | each entry carries the rendered value of its own attribute |
| Styling.EntryIffSet | src/style.rs:61-83 | an attribute has an entry exactly when it is set |
| Styling.EntryText | src/style.rs:62 | every entry is non-empty and ends with `;` |
| Styling.TextEmptyIff | src/style.rs:58-86 | the serialised text is empty exactly when no optional attribute is set |
| Styling.AngleIgnored | src/style.rs:54-86 | setting the angle never changes the serialised text |
| Styling.SetterFrame | src/style.rs:30-56 | a setter sets exactly its own field; every other attribute and the angle are unchanged |
| Styling.SettersCommute | src/style.rs:30-56 | setters of different fields commute, so the output does not depend on the order of the calls |
| Styling.LastSetWins | src/style.rs:30-56 | of two calls to the same setter only the last value is kept |
| Styling.NewStyleIsEmpty | src/style.rs:18-28 | a new style has no attribute set, writes the empty text and has angle 0 |
| Styling.StrokeExample | src/draw_svg.rs:29-32 | stroke-width 1 then stroke `#000000` serialise as `stroke:#000000;stroke-width:1;` |
| Styling.Style.constructor | src/style.rs:18-28 | the new object holds the empty style |
| Styling.Style.SetFill | src/style.rs:30-32 | the fields become the old ones with the fill set |
| Styling.Style.SetStroke | src/style.rs:34-36 | the fields become the old ones with the stroke set |
| Styling.Style.SetStrokeWidth | src/style.rs:38-40 | the fields become the old ones with the stroke width set |
| Styling.Style.SetOpacity | src/style.rs:42-44 | the fields become the old ones with the opacity set |
| Styling.Style.SetFillOpacity | src/style.rs:46-48 | the fields become the old ones with the fill opacity set |
| Styling.Style.SetStrokeOpacity | src/style.rs:50-52 | the fields become the old ones with the stroke opacity set |
| Styling.Style.SetAngle | src/style.rs:54-56 | the fields become the old ones with the angle replaced |
| Styling.Style.ToString | src/style.rs:58-86 | the pushes, one attribute at a time, build exactly the serialised text of the current fields |
| DrawSvg.Element | src/shapes/circle.rs:31 | every element's text ends with ` />` |
| DrawSvg.Lookup | src/shapes/circle.rs:20-34 | an attribute is found exactly when its name is among those written, together with the value it was written with |
| DrawSvg.PresentFollowsOrder | src/shapes/rect.rs:35-64 | the attributes written are a subsequence of the slots, in slot order |
| DrawSvg.LookupPresent | src/shapes/rect.rs:41-52 | an optional attribute is written exactly when its slot holds a value, and then with that value |
| DrawSvg.ClosingCases | src/draw_svg.rs:9-12 | with an empty style `close_element` appends exactly ` />`, otherwise ` style="` + the style text + `"` and then ` />` |
| DrawSvg.ClosingByText | src/draw_svg.rs:9 | testing the style for emptiness and testing its text for emptiness give the same closing |
| DrawSvg.ClosingEnds | src/draw_svg.rs:12 | the appended text always ends with ` />` |
| DrawSvg.CloseElement | src/draw_svg.rs:7-13 | the new buffer is the old buffer followed by the closing for the style |
| DrawSvg.CloseElementAppends | src/draw_svg.rs:7-13 | the old buffer is a prefix of the new one, and the new one ends with ` />` |
| DrawSvg.StrokeClosing | src/draw_svg.rs:28-32 | stroke `#000000` with stroke-width 1 appends ` style="stroke:#000000;stroke-width:1;" />` |
| DrawSvg.PushSlot | src/shapes/rect.rs:41-47 | pushing an optional attribute onto the buffer writes it exactly when it is set |
| Circles.CircleAttributeOrder | src/shapes/circle.rs:21-29 | the attributes follow the order id, cx, cy, r, style |
| Circles.CircleLookups | src/shapes/circle.rs:20-34 | id, cx, cy and r are written with the circle's values; style is written exactly when the style text is non-empty; a transform is never written |
| Circles.CircleSpelled | src/shapes/circle.rs:20-34 | the rendering is the four fixed attributes followed by what `close_element` would append for the style |
| Circles.CircleIgnoresAngle | src/shapes/circle.rs:20-34 | the style's angle never changes a circle's rendering |
| Circles.NewCircleExample | tests/test_elements.rs:8-9 | a new circle c1 at (100, 100) with radius 10 renders as `<circle id="c1" cx="100" cy="100" r="10" />` |
| Circles.Circle.constructor | src/shapes/circle.rs:14-16 | id, centre and radius are stored as given, with a new empty style |
| Circles.Circle.ToSvg | src/shapes/circle.rs:20-34 | the text pushed step by step equals the circle's rendering |
| Rects.RectAttributeOrder | src/shapes/rect.rs:36-61 | the attributes follow the order id, x, y, width, height, rx, ry, style, transform |
| Rects.RectLookups | src/shapes/rect.rs:35-64 | the five fixed attributes are always written; rx and ry are written exactly when set; style exactly when its text is non-empty; transform `rotate(a cx cy)` about the centre exactly when the angle is non-zero |
| Rects.PlainRect | src/shapes/rect.rs:35-64 | a rect with no rx, ry, style or angle is its five fixed attributes followed by ` />` |
| Rects.NewRectExample | tests/test_elements.rs:14-15 | a new rect r1 renders as `<rect id="r1" x="100" y="100" width="10" height="10" />` |
| Rects.Rect.constructor | src/shapes/rect.rs:19-21 | rx and ry are unset and the style is empty |
| Rects.Rect.SetRx | src/shapes/rect.rs:23 | only rx changes |
| Rects.Rect.SetRy | src/shapes/rect.rs:25 | only ry changes |
| Rects.Rect.ToSvg | src/shapes/rect.rs:35-64 | the text pushed step by step equals the rect's rendering |
| Rects.Rect.PushOptional | src/shapes/rect.rs:41-59 | the optional pushes append exactly the rx, ry, style and transform slots that apply, in that order |
| Paths.PathAttributeOrder | src/shapes/path.rs:20-31 | the attributes follow the order id, d, style |
| Paths.PathLookups | src/shapes/path.rs:20-32 | id and `d` are written as stored; style is written exactly when its text is non-empty; a transform is never written |
| Paths.PathSpelled | src/shapes/path.rs:20-32 | the rendering is id and `d`, copied verbatim, then what `close_element` would append for the style |
| Paths.StrokedPathExample | tests/test_elements.rs:20-24 | a path p1 with stroke `#000000` renders with ` style="stroke:#000000;"` after its `d` |
| Paths.PathLine | src/shapes/path.rs:20-32 | a path whose id, `d` and style hold no line feed is one line |
| Paths.Path.constructor | src/shapes/path.rs:14-16 | id and `d` are stored verbatim with an empty style |
| Paths.Path.ToSvg | src/shapes/path.rs:20-32 | the text pushed step by step equals the path's rendering |
| PathCommands.CommandsTextNoNewline | src/mindmap/connector.rs:16 | the `d` text of a built path holds no line feed |
| PathCommands.CommandsTextSnoc | src/mindmap/connector.rs:58-61 | each builder call appends its command's text at the end |
| PathCommands.TriangleText | tests/test_elements.rs:26-27 | move to (100, 100), lines to (300, 100) and (200, 300), then close, write `M 100 100 L 300 100 L 200 300 Z ` |
| Groups.Render | src/shapes/group.rs:39-43 | every drawable's rendering is non-empty and ends with `>` |
| Groups.GroupLineCount | src/shapes/group.rs:32-46 | a group whose id and style hold no line feed renders as 2 lines plus the children's lines |
| Groups.UniformGroupLines | src/shapes/group.rs:39-43 | children of k lines each give 2 + k × (number of children) lines |
| Groups.LineTotalUniform | src/shapes/group.rs:39-43 | renderings of k lines each total k times their number |
| Groups.LinesNewlines | src/shapes/group.rs:40-42 | each child adds exactly as many line feeds as it has lines |
| Groups.AddedChildIsLast | src/shapes/group.rs:28 | a child added last is drawn last, after every earlier child, which are unchanged |
| Groups.GroupIgnoresAngle | src/shapes/group.rs:31-46 | the style's angle never changes a group's rendering: no transform is written |
| Groups.EmptyGroup | src/shapes/group.rs:24-26 | a new group renders as `<g id="..">`, a line feed and `</g>` |
| Groups.TwoCirclesExample | tests/test_elements.rs:35-43 | two circles render as the four-line text of the test |
| Groups.AsWrittenAgreesWhenUnstyled | src/shapes/group.rs:33-38 | the opening as written and the corrected one agree whenever the style is empty |
| Groups.StyledGroupAsWritten | src/shapes/group.rs:35 | as written, an empty styled group is one line containing a backslash, where the corrected one is two lines |
| Groups.Group.constructor | src/shapes/group.rs:24-26 | a new group has no children and an empty style |
| Groups.Group.AddElement | src/shapes/group.rs:28 | the child is appended at the end; the earlier children and their order are unchanged |
| Groups.Group.ToSvg | src/shapes/group.rs:32-46 | the text pushed step by step is the group as written: the opening tag (for a styled group ending in a backslash and `n`), each child after a tab and before a line feed, then `</g>` |
| Groups.Group.OpeningTag | src/shapes/group.rs:33-38 | the opening tag as written: `<g id="..">` and a line feed when the style is empty, otherwise ` style=".."` followed by `>`, a backslash and `n` |
| Nodes.NodeValue.Svg | src/mindmap/node.rs:20-22 | the model of `Node::to_svg`; Nodes.NodeSpelled, Nodes.NodeLine, Nodes.LabelIgnored and Nodes.NodeExample state it |
| Nodes.NodeSpelled | src/mindmap/node.rs:20-22 | the rendering is `<circle id cx cy r />` with no style attribute |
| Nodes.NodeLine | src/mindmap/node.rs:20-22 | a node whose id holds no line feed is one line |
| Nodes.LabelIgnored | src/mindmap/node.rs:20-22 | the label never shows: nodes that differ only in their label render the same |
| Nodes.NodeExample | src/mindmap/node.rs:31-35 | node a at (100, 100) with radius 10 renders as `<circle id="a" cx="100" cy="100" r="10" />` |
| Geometry.ToRadians | src/mindmap/connector.rs:8 | 180 degrees is π and 0 is 0 |
| Geometry.PolarToCartesian | src/mindmap/mod.rs:28-30 | the model of `polar_to_cartesian`; Geometry.PolarDistance, Geometry.PolarAlongX and Geometry.CartesianRoundTrip state it |
| Geometry.PolarDistance | src/mindmap/mod.rs:28-30 | the point from `polar_to_cartesian` is at the given radius from the centre |
| Geometry.PolarAlongX | src/mindmap/mod.rs:28-30 | direction 0 points along the x axis |
| Geometry.CartesianToPolar | src/mindmap/mod.rs:12-23 | the model of `cartesian_to_polar`; Geometry.CartesianDistance, Geometry.CartesianRoundTrip and Connectors.FeetFaceEachOther state it |
| Geometry.CartesianDistance | src/mindmap/mod.rs:12-23 | the distance found is the non-negative root of the squared distance |
| Geometry.CartesianRoundTrip | src/mindmap/mod.rs:12-30 | `polar_to_cartesian` of `cartesian_to_polar` gives the point back |
| Connectors.PerpendicularSegment | src/mindmap/connector.rs:66-82 | the endpoints are symmetric about (px, py), and the result is None where the source divides by a zero magnitude |
| Connectors.PerpendicularDefined | src/mindmap/connector.rs:68-70 | the segment is defined exactly when (vx, vy) is not the zero vector |
| Connectors.PerpendicularSpan | src/mindmap/connector.rs:68-81 | the segment runs along (-vy, vx), scaled by l over the magnitude |
| Connectors.PerpendicularOrthogonal | src/mindmap/connector.rs:66-82 | the segment is orthogonal to (vx, vy) |
| Connectors.PerpendicularLength | src/mindmap/connector.rs:66-82 | the segment is l long |
| Connectors.LegIsUnit | src/mindmap/connector.rs:34-38 | the leg vector (cos d, sin d) has magnitude 1, so the division is safe |
| Connectors.AnkleEndpoints | src/mindmap/connector.rs:29-39 | the model of `ankle_endpoints`; Connectors.AnkleGeometry, Connectors.AnkleDistance and Connectors.AnkleExample state it |
| Connectors.AnkleGeometry | src/mindmap/connector.rs:29-39 | the ankle is a segment of length bar_width, centred on the midpoint 1.5 r along the direction, orthogonal to the leg |
| Connectors.AnkleDistance | src/mindmap/connector.rs:32 | the ankle's centre is 1.5 r from the node's centre |
| Connectors.AnkleExample | src/mindmap/connector.rs:93-97 | `ankle_endpoints(0, 0, 10, 0, 2) == (15, -1, 15, 1)` |
| Connectors.FootCommands | src/mindmap/connector.rs:58-61 | a foot has four commands |
| Connectors.FootPath | src/mindmap/connector.rs:41-64 | the model of `foot_path`: an empty id and the foot commands; Connectors.FootShape, Connectors.ToesOnRim and Connectors.ConnectorFeet state it |
| Connectors.FootShape | src/mindmap/connector.rs:41-64 | the foot's commands are M C A C; it starts at the first ankle point and ends at the second; the arc has radii (r, r), rotation 0 and flags (false, true) |
| Connectors.ToesOnRim | src/mindmap/connector.rs:44-45 | both toes lie on the node's circle |
| Connectors.ConnectorStructure | src/mindmap/connector.rs:6-24 | the connector is the group `c:{a}:{b}` with an empty style and exactly three paths: the `foot_path` about a at the direction θ of b seen from a, the `foot_path` about b at θ + π (both with the foot angle in radians and empty ids, each with the commands M C A C), and the edge `b:{a}:{b}` with the commands M L L L Z |
| Connectors.ConnectorGroup | src/mindmap/connector.rs:6-24 | the group's id is `c:{a}:{b}`, its style is empty, it has three children, the two feet have empty ids and the last child is the edge `b:{a}:{b}` |
| Connectors.ConnectorFeet | src/mindmap/connector.rs:8-12 | the first child is the `foot_path` about a at θ and the second the `foot_path` about b at θ + π |
| Connectors.ConnectorLetters | src/mindmap/connector.rs:11-23 | both feet are drawn with M C A C and the edge with M L L L Z |
| Connectors.EdgeJoinsFeet | src/mindmap/connector.rs:14-16 | the edge is M L L L Z through A's first ankle point, B's second, B's first and A's second, which are where the feet start and end |
| Connectors.FeetFaceEachOther | src/mindmap/connector.rs:10 | the direction of foot A points at node b |
| Connectors.BuiltLine | src/mindmap/connector.rs:16 | a built path whose id holds no line feed is one line |
| Connectors.ConnectorLineCount | src/mindmap/connector.rs:6-24 | a connector between nodes whose ids hold no line feed renders as five lines |
| Mindmaps.NewMindmap | src/mindmap/mindmap.rs:20-29 | a new mindmap keeps its id and largest radius, has no nodes and no connections, a foot angle of 30 degrees, a shrink factor of 0.8 and a bar width that is a fifth of the largest radius |
| Mindmaps.Placed | src/mindmap/mindmap.rs:31-34 | the id is inserted or overwritten with a node of that id and label, centred at (x, y), with the largest radius; other nodes and every other field are unchanged |
| Mindmaps.Joined | src/mindmap/mindmap.rs:45-47 | the pair is appended at the end with no check, duplicates are kept, and the nodes are unchanged |
| Mindmaps.Grown | src/mindmap/mindmap.rs:36-43 | growing fails exactly when the parent is missing; otherwise the child gets its id and label, its centre is `polar_to_cartesian` of three parent radii at `angle_deg` about the parent's centre, its radius is the parent's times the shrink factor, (parent, child) is appended to the connections, and other nodes and fields are unchanged |
| Mindmaps.GrownDistance | src/mindmap/mindmap.rs:38 | the child's centre is three parent radii from the parent's centre |
| Mindmaps.NewWellformed | src/mindmap/mindmap.rs:20-29 | a new mindmap with a positive largest radius is well formed: keys match ids, and radii lie in (0, max] |
| Mindmaps.PlacedWellformed | src/mindmap/mindmap.rs:31-34 | placing a node keeps the mindmap well formed |
| Mindmaps.JoinedWellformed | src/mindmap/mindmap.rs:45-47 | connecting keeps the mindmap well formed |
| Mindmaps.GrownWellformed | src/mindmap/mindmap.rs:36-43 | growing keeps the mindmap well formed: the shrunk radius stays in (0, max] |
| Mindmaps.PlacedResolved | src/mindmap/mindmap.rs:31-34 | placing a node never leaves a connection dangling |
| Mindmaps.GrownResolved | src/mindmap/mindmap.rs:36-43 | growing a node never leaves a connection dangling |
| Mindmaps.JoinedResolved | src/mindmap/mindmap.rs:45-47 | a connection stays drawable exactly when both of its ends exist |
| Mindmaps.ConnectorShapes | src/mindmap/mindmap.rs:58-63 | the connectors are built exactly when no connection dangles, one per connection in declaration order |
| Mindmaps.MindmapGroup | src/mindmap/mindmap.rs:51-68 | the mindmap group exists exactly when no connection dangles; it has the mindmap's id and two children |
| Mindmaps.MindmapSvg | src/mindmap/mindmap.rs:51-68 | drawing succeeds exactly when no connection dangles |
| Mindmaps.OrderLength | src/mindmap/mindmap.rs:55 | an enumeration of the node map visits every node exactly once |
| Mindmaps.NodesGroupLines | src/mindmap/mindmap.rs:54-57 | the nodes group has 2 + (number of nodes) lines |
| Mindmaps.ConnectorsGroupLines | src/mindmap/mindmap.rs:58-63 | the connectors group has 2 + 5 × (number of connections) lines |
| Mindmaps.MindmapLineCount | src/mindmap/mindmap.rs:51-68 | a mindmap with N nodes and C connections, none dangling, renders as 6 + N + 5C lines, in whatever order the nodes come |
| Mindmaps.TwoNodesExample | tests/test_mindmap.rs:6-13 | two placed nodes and one connection render as 13 lines |
| Mindmaps.Mindmap.constructor | src/mindmap/mindmap.rs:20-29 | the fields hold a new mindmap |
| Mindmaps.Mindmap.PlaceNode | src/mindmap/mindmap.rs:31-34 | the fields become the mindmap with the node placed |
| Mindmaps.Mindmap.GrowNode | src/mindmap/mindmap.rs:36-43 | with a missing parent nothing changes and the call fails (the source panics); otherwise the fields become the grown mindmap |
| Mindmaps.Mindmap.ConnectNodes | src/mindmap/mindmap.rs:45-47 | the fields become the mindmap with the pair appended |
| Mindmaps.Mindmap.ToSvg | src/mindmap/mindmap.rs:51-68 | the method draws the mindmap as the value-level rendering does, for some enumeration order of the node map, and fails exactly when a connection dangles |
| Mindmaps.Mindmap.NodesGroupOf | src/mindmap/mindmap.rs:54-57 | the nodes group holds every node of the map once, in the order its loop visits them |
| Mindmaps.Mindmap.ConnectorsGroupOf | src/mindmap/mindmap.rs:58-63 | the connectors group holds one connector per connection, in order, and the loop fails exactly when a connection dangles |

## Left out

- f32 arithmetic is idealised as real arithmetic, with no rounding, overflow, NaN or infinity. Rust's `{}` formatting of f32 is `Text.FormatReal`: integral values without a fraction, any other value with at most six fractional digits. This agrees with Rust at the integral values the examples use. It does not reproduce the shortest round-trip digits Rust prints for other values.
- `cos`, `sin`, `sqrt` and `atan2` are the uninterpreted fields of `Geometry.Math`. `Math.Valid` grants only these facts:
  - cos 0 = 1 and sin 0 = 0;
  - cos² + sin² = 1;
  - sqrt is the non-negative square root, with sqrt 0 = 0 and sqrt 1 = 1;
  - atan2 returns the direction of its point.
- The positions of the Bézier control points of a foot are computed but not proved to be visually sensible.
- Connectors.PerpendicularSegment: a zero leg vector makes the source divide by zero and produce NaN coordinates. The model returns None instead. Every leg vector the source passes has length 1 (`Connectors.LegIsUnit`), so that case never arises in a connector.
- The path builder (`move_to`, `line_to`, `curve_to`, `elliptical_arc_to`, `close`) and `Path::from_str` are not part of this model's source files. The model represents a built path as its command list (`PathCommands.Command`), written as each letter followed by its numbers, as the expected texts in tests/test_elements.rs show for M, L and Z. The spelling of C and A commands is an assumption.
- `Style::is_empty` is not defined in the source files. It is taken to mean "no optional attribute is set" (`StyleValue.IsEmpty`). `DrawSvg.ClosingByText` shows it then agrees with testing the style text for emptiness.
- The iteration order of a `HashMap` is unspecified. The node enumeration is therefore a ghost sequence `order`, required only to list every key exactly once. Every rendering property is proved for all such orders.
- Mindmaps.Mindmap.GrowNode and Mindmaps.Mindmap.ToSvg: the panic of `unwrap` on a missing node becomes a `false` or `None` result. A Rust panic leaves no state to inspect; the model leaves the fields unchanged.
- Groups.Render: a child group is drawn with the corrected opening tag (`Groups.Opening`), not the one `to_svg` writes. The two differ only for a child group with a non-empty style (`Groups.AsWrittenAgreesWhenUnstyled`); `Groups.Group.ToSvg` draws the outer group as written.
- `grow_node` passes `angle_deg` straight into the radians parameter of `polar_to_cartesian`. The model keeps that as written, so `Mindmaps.Grown` uses the angle in radians.
- The expectation of 14 lines at tests/test_mindmap.rs:23 is not encoded. For 8 nodes and 7 connections the model proves 6 + 8 + 5·7 = 49 lines (`Mindmaps.MindmapLineCount`).
- `lines().count()` is modelled by counting line feeds (`Text.LineCount`). Carriage returns are not treated specially.
- Colors.Scale: the truncating `as u8` after `clamp` is the floor of the clamped real product.
- Rust strings are UTF-8 bytes. Here a string is a sequence of characters whose byte length is computed from each character's UTF-8 width (`Colors.ByteLen`). This is enough for the length check and the byte-offset slicing of `hex_to_rgb`.
- `Display for Rect` (src/shapes/rect.rs:28-32) only forwards to `to_svg` and is not modelled separately.
- `Box<dyn ToSvg>` dispatch is the closed datatype `Groups.Drawable`. It covers circle, rect, path, node and group. The mindmap itself is not a child variant, because nothing in the modelled code puts a mindmap inside a group.
- The node label is stored but never drawn. `Nodes.LabelIgnored` states this.
- Out of scope:
  - `SvgDrawing` in src/svg_viewport.rs, which prints to standard output;
  - the example programs, which use a random number generator and print;
  - the re-exports in src/lib.rs and src/shapes/mod.rs.

## Findings

| source | as written | input that shows it | evidently intended | confidence | as-written member | corrected member |
|---|---|---|---|---|---|---|
| src/shapes/group.rs:35 | the styled opening tag is written with a raw string `r#" style="{}">\n"#`, so it ends with a backslash and the letter n instead of a line feed | any group with a non-empty style, e.g. an empty group whose style has a fill: its output is one line holding `>\n</g>` | a line feed after the opening tag, as the unstyled branch at line 37 writes | high (not executed) | Groups.StyledGroupAsWritten | Groups.GroupLineCount |
