/** The mindmap (src/mindmap/mindmap.rs): a map of nodes keyed by id and an
    append-only list of parent→child connections, drawn as a group holding
    a group of nodes and a group of connectors. */
module Mindmaps {
  import opened Text
  import opened Styling
  import opened DrawSvg
  import opened Nodes
  import opened Groups
  import opened Geometry
  import opened Connectors

  datatype MindmapValue = MindmapValue(
    footAngleDeg: real,
    barWidth: real,
    id: string,
    nodes: map<string, NodeValue>,
    connections: seq<(string, string)>,
    maxNodeRadius: real,
    shrink: real)

  /** `Mindmap::new`: a foot angle of 30 degrees, bars a fifth of the
      largest radius wide, each generation 0.8 times the radius of its
      parent, no nodes and no connections. */
  function NewMindmap(id: string, maxNodeRadius: real): (v: MindmapValue)
    ensures v.nodes == map[] && v.connections == []
    ensures v.id == id && v.maxNodeRadius == maxNodeRadius
    ensures v.footAngleDeg == 30.0 && v.shrink == 0.8 && v.barWidth * 5.0 == maxNodeRadius
  {
    MindmapValue(30.0, maxNodeRadius / 5.0, id, map[], [], maxNodeRadius, 0.8)
  }

  /** `place_node`: the node `id` at (x, y) with the largest radius, which
      replaces any node that had that id. */
  function Placed(v: MindmapValue, id: string, labelText: string, x: real, y: real): (w: MindmapValue)
    ensures id in w.nodes && w.nodes[id].radius == v.maxNodeRadius
    ensures w.nodes[id].id == id && w.nodes[id].labelText == labelText
    ensures w.nodes[id].cx == x && w.nodes[id].cy == y
    ensures w.nodes.Keys == v.nodes.Keys + {id}
    ensures forall k :: k in v.nodes && k != id ==> w.nodes[k] == v.nodes[k]
    ensures w.(nodes := v.nodes) == v
  {
    v.(nodes := v.nodes[id := NodeValue(id, labelText, x, y, v.maxNodeRadius)])
  }

  /** `connect_nodes`: the pair goes last, whether or not the nodes exist
      and whether or not the pair is already there. */
  function Joined(v: MindmapValue, fromId: string, toId: string): (w: MindmapValue)
    ensures |w.connections| == |v.connections| + 1
    ensures w.connections[..|v.connections|] == v.connections && w.connections[|v.connections|] == (fromId, toId)
    ensures w.nodes == v.nodes
  {
    v.(connections := v.connections + [(fromId, toId)])
  }

  /** `grow_node`: with the parent present, the child `id` three parent
      radii away from the parent in the direction `angleDeg` (passed on as
      it is, where radians are expected), with the parent's radius shrunk,
      and the connection parent→child last. With the parent missing the
      source panics before changing anything, which is `None` here. */
  function Grown(m: Math, v: MindmapValue, id: string, labelText: string, angleDeg: real, parentId: string): (r: Option<MindmapValue>)
    ensures r.None? <==> parentId !in v.nodes
    ensures r.Some? ==> id in r.value.nodes && r.value.nodes.Keys == v.nodes.Keys + {id}
    ensures r.Some? ==> r.value.nodes[id].radius == v.nodes[parentId].radius * v.shrink
    ensures r.Some? ==> r.value.nodes[id].id == id && r.value.nodes[id].labelText == labelText
    ensures r.Some? ==>
      var parent := v.nodes[parentId];
      (r.value.nodes[id].cx, r.value.nodes[id].cy) == PolarToCartesian(m, parent.radius * 3.0, angleDeg, parent.cx, parent.cy)
    ensures r.Some? ==> r.value.connections == v.connections + [(parentId, id)]
    ensures r.Some? ==> forall k :: k in v.nodes && k != id ==> r.value.nodes[k] == v.nodes[k]
    ensures r.Some? ==> r.value.(nodes := v.nodes, connections := v.connections) == v
  {
    if parentId !in v.nodes then None
    else
      var parent := v.nodes[parentId];
      var centre := PolarToCartesian(m, parent.radius * 3.0, angleDeg, parent.cx, parent.cy);
      var child := NodeValue(id, labelText, centre.0, centre.1, parent.radius * v.shrink);
      Some(Joined(v.(nodes := v.nodes[id := child]), parentId, id))
  }

  /** A grown child sits on the circle of three parent radii about its
      parent. */
  lemma GrownDistance(m: Math, v: MindmapValue, id: string, labelText: string, angleDeg: real, parentId: string)
    requires m.Valid() && parentId in v.nodes
    ensures var child := Grown(m, v, id, labelText, angleDeg, parentId).value.nodes[id];
      var parent := v.nodes[parentId];
      SquaredDistance((child.cx, child.cy), (parent.cx, parent.cy))
        == (parent.radius * 3.0) * (parent.radius * 3.0)
  {
    var parent := v.nodes[parentId];
    PolarDistance(m, parent.radius * 3.0, angleDeg, parent.cx, parent.cy);
  }

  /** The invariant the operations keep: every node is stored under its own
      id and has a radius in (0, maxNodeRadius], and the shrink factor is a
      fraction in (0, 1]. */
  predicate Wellformed(v: MindmapValue) {
    && 0.0 < v.maxNodeRadius && 0.0 < v.shrink <= 1.0
    && forall k :: k in v.nodes ==> v.nodes[k].id == k && 0.0 < v.nodes[k].radius <= v.maxNodeRadius
  }

  lemma NewWellformed(id: string, maxNodeRadius: real)
    requires 0.0 < maxNodeRadius
    ensures Wellformed(NewMindmap(id, maxNodeRadius))
  {
  }

  lemma PlacedWellformed(v: MindmapValue, id: string, labelText: string, x: real, y: real)
    requires Wellformed(v)
    ensures Wellformed(Placed(v, id, labelText, x, y))
  {
  }

  lemma JoinedWellformed(v: MindmapValue, fromId: string, toId: string)
    requires Wellformed(v)
    ensures Wellformed(Joined(v, fromId, toId))
  {
  }

  lemma GrownWellformed(m: Math, v: MindmapValue, id: string, labelText: string, angleDeg: real, parentId: string)
    requires Wellformed(v) && parentId in v.nodes
    ensures Wellformed(Grown(m, v, id, labelText, angleDeg, parentId).value)
  {
    var w := Grown(m, v, id, labelText, angleDeg, parentId).value;
    GrownChild(m, v, id, labelText, angleDeg, parentId);
    forall k | k in w.nodes
      ensures w.nodes[k].id == k && 0.0 < w.nodes[k].radius <= w.maxNodeRadius
    {
      if k != id {
        assert w.nodes[k] == v.nodes[k];
      }
    }
  }

  /** The grown child is stored under its id, with a radius in
      (0, maxNodeRadius] when its parent's is. */
  lemma GrownChild(m: Math, v: MindmapValue, id: string, labelText: string, angleDeg: real, parentId: string)
    requires parentId in v.nodes
    requires 0.0 < v.nodes[parentId].radius <= v.maxNodeRadius && 0.0 < v.shrink <= 1.0
    ensures var w := Grown(m, v, id, labelText, angleDeg, parentId).value;
      && w.maxNodeRadius == v.maxNodeRadius && w.shrink == v.shrink
      && w.nodes[id].id == id && 0.0 < w.nodes[id].radius <= w.maxNodeRadius
  {
    ShrunkRadius(v.nodes[parentId].radius, v.shrink, v.maxNodeRadius);
  }

  /** A radius in (0, max] times a fraction in (0, 1] stays in (0, max]. */
  lemma ShrunkRadius(radius: real, shrink: real, max: real)
    requires 0.0 < radius <= max && 0.0 < shrink <= 1.0
    ensures 0.0 < radius * shrink <= max
  {
    assert radius * shrink <= radius * 1.0;
  }

  /** Every connection names two nodes of the map. */
  predicate Resolved(nodes: map<string, NodeValue>, cs: seq<(string, string)>) {
    forall i :: 0 <= i < |cs| ==> cs[i].0 in nodes && cs[i].1 in nodes
  }

  /** Placing a node never leaves a connection dangling that was not
      dangling before, and neither does growing one. */
  lemma PlacedResolved(v: MindmapValue, id: string, labelText: string, x: real, y: real)
    requires Resolved(v.nodes, v.connections)
    ensures Resolved(Placed(v, id, labelText, x, y).nodes, Placed(v, id, labelText, x, y).connections)
  {
  }

  lemma GrownResolved(m: Math, v: MindmapValue, id: string, labelText: string, angleDeg: real, parentId: string)
    requires Resolved(v.nodes, v.connections) && parentId in v.nodes
    ensures var w := Grown(m, v, id, labelText, angleDeg, parentId).value;
      Resolved(w.nodes, w.connections)
  {
    var w := Grown(m, v, id, labelText, angleDeg, parentId).value;
    forall i | 0 <= i < |w.connections|
      ensures w.connections[i].0 in w.nodes && w.connections[i].1 in w.nodes
    {
      if i < |v.connections| {
        assert w.connections[i] == v.connections[i];
      }
    }
  }

  /** A connection keeps the connections resolved exactly when both of its
      ends exist. */
  lemma JoinedResolved(v: MindmapValue, fromId: string, toId: string)
    requires Resolved(v.nodes, v.connections)
    ensures Resolved(v.nodes, Joined(v, fromId, toId).connections) <==> fromId in v.nodes && toId in v.nodes
  {
    var w := Joined(v, fromId, toId);
    if fromId in v.nodes && toId in v.nodes {
      forall i | 0 <= i < |w.connections|
        ensures w.connections[i].0 in v.nodes && w.connections[i].1 in v.nodes
      {
        if i < |v.connections| {
          assert w.connections[i] == v.connections[i];
        }
      }
    }
  }

  /** `order` lists every node id once: one order in which the `HashMap`
      may hand out its values. */
  predicate IsOrder(order: seq<string>, nodes: map<string, NodeValue>) {
    && Distinct(order)
    && (forall k :: k in order ==> k in nodes)
    && (forall k :: k in nodes ==> k in order)
  }

  /** The children of the nodes group, in the given order. */
  function NodeShapes(nodes: map<string, NodeValue>, order: seq<string>): (ds: seq<Drawable>)
    requires forall k :: k in order ==> k in nodes
    ensures |ds| == |order|
  {
    seq(|order|, i requires 0 <= i < |order| => NodeShape(nodes[order[i]]))
  }

  /** One connector per connection, in declaration order; `None` when some
      connection names a missing node, where the source's `unwrap` panics. */
  function ConnectorShapes(m: Math, nodes: map<string, NodeValue>, cs: seq<(string, string)>, footAngleDeg: real, barWidth: real): (r: Option<seq<Drawable>>)
    requires m.Valid()
    ensures r.Some? <==> Resolved(nodes, cs)
    ensures r.Some? ==> ConnectorsFor(m, nodes, cs, footAngleDeg, barWidth, r.value)
    decreases |cs|
  {
    if cs == [] then Some([])
    else
      var front := ConnectorShapes(m, nodes, cs[..|cs| - 1], footAngleDeg, barWidth);
      var last := cs[|cs| - 1];
      ResolvedSnoc(nodes, cs);
      if front.None? || last.0 !in nodes || last.1 !in nodes then
        None
      else
        ConnectorsForSnoc(m, nodes, cs, footAngleDeg, barWidth, front.value);
        Some(front.value + [GroupShape(Connector(m, nodes[last.0], nodes[last.1], footAngleDeg, barWidth))])
  }

  /** `ds` holds, for each connection of `cs` in turn, the connector
      between its two nodes. */
  ghost predicate ConnectorsFor(m: Math, nodes: map<string, NodeValue>, cs: seq<(string, string)>, footAngleDeg: real, barWidth: real, ds: seq<Drawable>)
    requires m.Valid() && Resolved(nodes, cs)
  {
    |ds| == |cs|
    && forall i :: 0 <= i < |cs| ==>
      ds[i] == GroupShape(Connector(m, nodes[cs[i].0], nodes[cs[i].1], footAngleDeg, barWidth))
  }

  lemma ConnectorsForSnoc(m: Math, nodes: map<string, NodeValue>, cs: seq<(string, string)>, footAngleDeg: real, barWidth: real, front: seq<Drawable>)
    requires m.Valid() && cs != [] && Resolved(nodes, cs)
    requires Resolved(nodes, cs[..|cs| - 1]) && ConnectorsFor(m, nodes, cs[..|cs| - 1], footAngleDeg, barWidth, front)
    ensures var last := cs[|cs| - 1];
      ConnectorsFor(m, nodes, cs, footAngleDeg, barWidth,
        front + [GroupShape(Connector(m, nodes[last.0], nodes[last.1], footAngleDeg, barWidth))])
  {
    var last := cs[|cs| - 1];
    var ds := front + [GroupShape(Connector(m, nodes[last.0], nodes[last.1], footAngleDeg, barWidth))];
    forall i | 0 <= i < |cs|
      ensures ds[i] == GroupShape(Connector(m, nodes[cs[i].0], nodes[cs[i].1], footAngleDeg, barWidth))
    {
      if i < |cs| - 1 {
        assert ds[i] == front[i];
        assert cs[..|cs| - 1][i] == cs[i];
      }
    }
  }

  /** A list of connections is resolved exactly when its front is and its
      last connection names two nodes. */
  lemma ResolvedSnoc(nodes: map<string, NodeValue>, cs: seq<(string, string)>)
    requires cs != []
    ensures Resolved(nodes, cs) <==>
      Resolved(nodes, cs[..|cs| - 1]) && cs[|cs| - 1].0 in nodes && cs[|cs| - 1].1 in nodes
  {
    var front := cs[..|cs| - 1];
    assert forall i :: 0 <= i < |front| ==> front[i] == cs[i];
  }

  /** The group of the nodes, `nodes-{id}`. */
  function NodesGroup(v: MindmapValue, order: seq<string>): GroupValue
    requires IsOrder(order, v.nodes)
  {
    GroupValue("nodes-" + v.id, NodeShapes(v.nodes, order), EmptyStyle)
  }

  /** `to_svg`'s group: `{id}` holding the nodes group and then the
      connectors group `connectors-{id}`. */
  function MindmapGroup(m: Math, v: MindmapValue, order: seq<string>): (r: Option<GroupValue>)
    requires m.Valid() && IsOrder(order, v.nodes)
    ensures r.Some? <==> Resolved(v.nodes, v.connections)
    ensures r.Some? ==> r.value.id == v.id && |r.value.children| == 2
  {
    var cs := ConnectorShapes(m, v.nodes, v.connections, v.footAngleDeg, v.barWidth);
    if cs.None? then None
    else
      Some(GroupValue(v.id,
        [GroupShape(NodesGroup(v, order)), GroupShape(GroupValue("connectors-" + v.id, cs.value, EmptyStyle))],
        EmptyStyle))
  }

  /** `to_svg` of the mindmap when the nodes come out in `order`. */
  function MindmapSvg(m: Math, v: MindmapValue, order: seq<string>): (r: Option<string>)
    requires m.Valid() && IsOrder(order, v.nodes)
    ensures r.Some? <==> Resolved(v.nodes, v.connections)
  {
    var g := MindmapGroup(m, v, order);
    if g.None? then None else Some(GroupSvg(g.value))
  }

  /** A distinct list is as long as the set of its elements. */
  lemma {:induction false} DistinctCard(s: seq<string>)
    requires Distinct(s)
    ensures |set k | k in s| == |s|
    decreases |s|
  {
    if s != [] {
      var front := s[..|s| - 1];
      assert Distinct(front);
      DistinctCard(front);
      assert (set k | k in s) == (set k | k in front) + {s[|s| - 1]};
      assert s[|s| - 1] !in front;
    }
  }

  /** An order of the nodes has one entry per node. */
  lemma OrderLength(order: seq<string>, nodes: map<string, NodeValue>)
    requires IsOrder(order, nodes)
    ensures |order| == |nodes|
  {
    DistinctCard(order);
    assert (set k | k in order) == nodes.Keys;
  }

  /** Every node of the nodes group is one line. */
  lemma NodesGroupLines(v: MindmapValue, order: seq<string>)
    requires IsOrder(order, v.nodes) && NoNewline(v.id)
    requires forall k :: k in v.nodes ==> NoNewline(v.nodes[k].id)
    ensures LineCount(GroupSvg(NodesGroup(v, order))) == 2 + |v.nodes|
  {
    var g := NodesGroup(v, order);
    NodeShapesLines(v.nodes, order);
    OrderLength(order, v.nodes);
    NewStyleIsEmpty();
    assert NoNewline("nodes-" + v.id);
    UniformGroupLines(g, 1);
  }

  lemma NodeShapesLines(nodes: map<string, NodeValue>, order: seq<string>)
    requires forall k :: k in order ==> k in nodes
    requires forall k :: k in nodes ==> NoNewline(nodes[k].id)
    ensures forall i :: 0 <= i < |order| ==> LineCount(Render(NodeShapes(nodes, order)[i])) == 1
  {
    var ds := NodeShapes(nodes, order);
    forall i | 0 <= i < |order|
      ensures LineCount(Render(ds[i])) == 1
    {
      var n := nodes[order[i]];
      assert ds[i] == NodeShape(n);
      NodeRenderLine(n);
    }
  }

  lemma NodeRenderLine(n: NodeValue)
    requires NoNewline(n.id)
    ensures LineCount(Render(NodeShape(n))) == 1
  {
    NodeLine(n);
    RenderNode(n);
  }

  lemma RenderNode(n: NodeValue)
    ensures Render(NodeShape(n)) == n.Svg()
  {
  }

  /** Every connector of the connectors group is five lines. */
  lemma ConnectorsGroupLines(m: Math, v: MindmapValue, cs: seq<Drawable>)
    requires m.Valid() && NoNewline(v.id)
    requires forall k :: k in v.nodes ==> NoNewline(v.nodes[k].id)
    requires ConnectorShapes(m, v.nodes, v.connections, v.footAngleDeg, v.barWidth) == Some(cs)
    ensures LineCount(GroupSvg(GroupValue("connectors-" + v.id, cs, EmptyStyle))) == 2 + 5 * |v.connections|
  {
    var g := GroupValue("connectors-" + v.id, cs, EmptyStyle);
    ConnectorShapesLines(m, v.nodes, v.connections, v.footAngleDeg, v.barWidth, cs);
    NewStyleIsEmpty();
    assert NoNewline("connectors-" + v.id);
    UniformGroupLines(g, 5);
  }

  lemma ConnectorShapesLines(m: Math, nodes: map<string, NodeValue>, connections: seq<(string, string)>, footAngleDeg: real, barWidth: real, cs: seq<Drawable>)
    requires m.Valid() && forall k :: k in nodes ==> NoNewline(nodes[k].id)
    requires ConnectorShapes(m, nodes, connections, footAngleDeg, barWidth) == Some(cs)
    ensures forall i :: 0 <= i < |cs| ==> LineCount(Render(cs[i])) == 5
  {
    forall i | 0 <= i < |cs|
      ensures LineCount(Render(cs[i])) == 5
    {
      var c := connections[i];
      var a := nodes[c.0];
      var b := nodes[c.1];
      assert cs[i] == GroupShape(Connector(m, a, b, footAngleDeg, barWidth));
      ConnectorRenderLines(m, a, b, footAngleDeg, barWidth);
    }
  }

  lemma RenderGroup(g: GroupValue)
    ensures Render(GroupShape(g)) == GroupSvg(g)
  {
  }

  lemma ConnectorRenderLines(m: Math, a: NodeValue, b: NodeValue, footAngleDeg: real, barWidth: real)
    requires m.Valid() && NoNewline(a.id) && NoNewline(b.id)
    ensures LineCount(Render(GroupShape(Connector(m, a, b, footAngleDeg, barWidth)))) == 5
  {
    ConnectorLineCount(m, a, b, footAngleDeg, barWidth);
    RenderGroup(Connector(m, a, b, footAngleDeg, barWidth));
  }

  /** Two rendered groups under one unstyled group add their lines and two
      more. */
  lemma TwoGroupLines(g: GroupValue, a: GroupValue, b: GroupValue)
    requires NoNewline(g.id) && g.style == EmptyStyle && g.children == [GroupShape(a), GroupShape(b)]
    ensures LineCount(GroupSvg(g)) == 2 + LineCount(GroupSvg(a)) + LineCount(GroupSvg(b))
  {
    NewStyleIsEmpty();
    GroupLineCount(g);
    RenderTwoGroups(a, b);
    TwoLineTotal(GroupSvg(a), GroupSvg(b));
  }

  lemma RenderTwoGroups(a: GroupValue, b: GroupValue)
    ensures RenderAll([GroupShape(a), GroupShape(b)]) == [GroupSvg(a), GroupSvg(b)]
  {
    var rs := RenderAll([GroupShape(a), GroupShape(b)]);
    assert rs[0] == Render(GroupShape(a)) == GroupSvg(a);
    assert rs[1] == Render(GroupShape(b)) == GroupSvg(b);
  }

  lemma TwoLineTotal(r0: string, r1: string)
    ensures LineTotal([r0, r1]) == LineCount(r0) + LineCount(r1)
  {
    assert [r0, r1][..1] == [r0];
    assert [r0][..0] == [];
    assert LineTotal([r0]) == LineCount(r0);
  }

  /** With its ids free of line feeds and every connection resolved, a
      mindmap of N nodes and C connections is 6 + N + 5C lines, whatever
      order the nodes come out in. */
  lemma MindmapLineCount(m: Math, v: MindmapValue, order: seq<string>)
    requires m.Valid() && IsOrder(order, v.nodes) && Resolved(v.nodes, v.connections)
    requires NoNewline(v.id) && forall k :: k in v.nodes ==> NoNewline(v.nodes[k].id)
    ensures LineCount(MindmapSvg(m, v, order).value) == 6 + |v.nodes| + 5 * |v.connections|
  {
    var cs := ConnectorShapes(m, v.nodes, v.connections, v.footAngleDeg, v.barWidth).value;
    var g := MindmapGroup(m, v, order).value;
    NodesGroupLines(v, order);
    ConnectorsGroupLines(m, v, cs);
    TwoGroupLines(g, NodesGroup(v, order), GroupValue("connectors-" + v.id, cs, EmptyStyle));
  }

  /** tests/test_mindmap.rs, two_nodes: two placed nodes and one connection
      between them draw as 13 lines, in either order of the nodes. */
  lemma TwoNodesExample(m: Math, order: seq<string>)
    requires m.Valid()
    requires IsOrder(order, TwoNodes().nodes)
    ensures MindmapSvg(m, TwoNodes(), order).Some?
    ensures LineCount(MindmapSvg(m, TwoNodes(), order).value) == 13
  {
    var v := TwoNodes();
    assert v.nodes.Keys == {"n1", "n2"};
    assert |v.nodes| == 2 by {
      assert |v.nodes.Keys| == |{"n1", "n2"}|;
    }
    MindmapLineCount(m, v, order);
  }

  /** The mindmap of the two_nodes test. */
  function TwoNodes(): MindmapValue {
    var v0 := NewMindmap("a_mindmap", 45.0);
    var v1 := Placed(v0, "n1", "Node 1", 100.0, 100.0);
    var v2 := Placed(v1, "n2", "Node 2", 180.0, 180.0);
    Joined(v2, "n1", "n2")
  }

  /** A mindmap whose object the source changes in place. */
  class Mindmap {
    var footAngleDeg: real
    var barWidth: real
    var id: string
    var nodes: map<string, NodeValue>
    var connections: seq<(string, string)>
    var maxNodeRadius: real
    var shrink: real

    function Value(): MindmapValue
      reads this
    {
      MindmapValue(footAngleDeg, barWidth, id, nodes, connections, maxNodeRadius, shrink)
    }

    /** `Mindmap::new`. */
    constructor (id: string, maxNodeRadius: real)
      ensures Value() == NewMindmap(id, maxNodeRadius)
    {
      footAngleDeg := 30.0;
      barWidth := maxNodeRadius / 5.0;
      this.id := id;
      nodes := map[];
      this.maxNodeRadius := maxNodeRadius;
      connections := [];
      shrink := 0.8;
    }

    /** `place_node`. */
    method PlaceNode(id: string, labelText: string, x: real, y: real)
      modifies this
      ensures Value() == Placed(old(Value()), id, labelText, x, y)
    {
      var el := NodeValue(id, labelText, x, y, maxNodeRadius);
      nodes := nodes[id := el];
    }

    /** `grow_node`: `ok` is false exactly when the parent is missing, where
        the source panics, and then nothing has changed. */
    method GrowNode(m: Math, id: string, labelText: string, angleDeg: real, parentId: string) returns (ok: bool)
      modifies this
      ensures ok <==> Grown(m, old(Value()), id, labelText, angleDeg, parentId).Some?
      ensures ok ==> Value() == Grown(m, old(Value()), id, labelText, angleDeg, parentId).value
      ensures !ok ==> Value() == old(Value())
    {
      if parentId !in nodes {
        return false;
      }
      var parent := nodes[parentId];
      var centre := PolarToCartesian(m, parent.radius * 3.0, angleDeg, parent.cx, parent.cy);
      var el := NodeValue(id, labelText, centre.0, centre.1, parent.radius * shrink);
      nodes := nodes[id := el];
      ConnectNodes(parentId, id);
      ghost var grown := Grown(m, old(Value()), id, labelText, angleDeg, parentId).value;
      assert grown.nodes[id] == el;
      assert grown.nodes == nodes;
      ok := true;
    }

    /** `connect_nodes`. */
    method ConnectNodes(fromId: string, toId: string)
      modifies this
      ensures Value() == Joined(old(Value()), fromId, toId)
    {
      connections := connections + [(fromId, toId)];
    }

    /** `to_svg`: `None` when a connection names a missing node, where the
        source panics. The nodes come out of the map in some order, returned
        as `order`; the connectors come out in declaration order. */
    method ToSvg(m: Math) returns (r: Option<string>, ghost order: seq<string>)
      requires m.Valid()
      ensures IsOrder(order, nodes)
      ensures r == MindmapSvg(m, Value(), order)
    {
      var mindmapGroup := new Group(id);
      var nodeGroup;
      nodeGroup, order := NodesGroupOf();
      var connectorGroup, ok := ConnectorsGroupOf(m);
      if !ok {
        return None, order;
      }
      ghost var nodesChild := GroupShape(nodeGroup.Data());
      ghost var connectorsChild := GroupShape(connectorGroup.Data());
      mindmapGroup.AddElement(GroupShape(nodeGroup.Data()));
      mindmapGroup.AddElement(GroupShape(connectorGroup.Data()));
      assert [] + [nodesChild] + [connectorsChild] == [nodesChild, connectorsChild];
      assert MindmapGroup(m, Value(), order) == Some(mindmapGroup.Data());
      var s := mindmapGroup.ToSvg();
      NewStyleIsEmpty();
      AsWrittenAgreesWhenUnstyled(mindmapGroup.Data());
      r := Some(s);
    }

    /** The first loop of `to_svg`: the group `nodes-{id}` with every node,
        in the order the map hands them out. */
    method NodesGroupOf() returns (g: Group, ghost order: seq<string>)
      ensures fresh(g)
      ensures IsOrder(order, nodes) && g.Data() == NodesGroup(Value(), order)
    {
      g := new Group("nodes-" + id);
      var remaining := nodes.Keys;
      order := [];
      while remaining != {}
        invariant remaining <= nodes.Keys && Distinct(order)
        invariant forall k :: k in order <==> k in nodes && k !in remaining
        invariant g.Data() == GroupValue("nodes-" + id, NodeShapes(nodes, order), EmptyStyle)
        decreases |remaining|
      {
        var k :| k in remaining;
        g.AddElement(NodeShape(nodes[k]));
        order := order + [k];
        remaining := remaining - {k};
      }
    }

    /** The second loop of `to_svg`: the group `connectors-{id}` with one
        connector per connection, in declaration order; `ok` is false when
        a connection names a missing node, where the source panics. */
    method ConnectorsGroupOf(m: Math) returns (g: Group, ok: bool)
      requires m.Valid()
      ensures fresh(g)
      ensures ok <==> Resolved(nodes, connections)
      ensures ok ==>
        g.Data() == GroupValue("connectors-" + id, ConnectorShapes(m, nodes, connections, footAngleDeg, barWidth).value, EmptyStyle)
    {
      g := new Group("connectors-" + id);
      var i := 0;
      while i < |connections|
        invariant 0 <= i <= |connections|
        invariant ConnectorShapes(m, nodes, connections[..i], footAngleDeg, barWidth) == Some(g.Data().children)
        invariant g.Data().id == "connectors-" + id && g.Data().style == EmptyStyle
      {
        var (fromId, toId) := connections[i];
        if fromId !in nodes || toId !in nodes {
          DanglingAt(m, nodes, connections, i, footAngleDeg, barWidth);
          return g, false;
        }
        ConnectorShapesStep(m, nodes, connections, i, footAngleDeg, barWidth);
        g.AddElement(GroupShape(Connector(m, nodes[fromId], nodes[toId], footAngleDeg, barWidth)));
        i := i + 1;
      }
      assert connections[..i] == connections;
      ok := true;
    }
  }

  /** Resolving one more connection appends its connector. */
  lemma ConnectorShapesStep(m: Math, nodes: map<string, NodeValue>, cs: seq<(string, string)>, i: nat, footAngleDeg: real, barWidth: real)
    requires m.Valid() && i < |cs| && cs[i].0 in nodes && cs[i].1 in nodes
    requires ConnectorShapes(m, nodes, cs[..i], footAngleDeg, barWidth).Some?
    ensures ConnectorShapes(m, nodes, cs[..i + 1], footAngleDeg, barWidth)
      == Some(ConnectorShapes(m, nodes, cs[..i], footAngleDeg, barWidth).value
        + [GroupShape(Connector(m, nodes[cs[i].0], nodes[cs[i].1], footAngleDeg, barWidth))])
  {
    assert cs[..i + 1][..i] == cs[..i];
  }

  /** A connection that names a missing node leaves the whole list
      unresolved. */
  lemma DanglingAt(m: Math, nodes: map<string, NodeValue>, cs: seq<(string, string)>, i: nat, footAngleDeg: real, barWidth: real)
    requires m.Valid() && i < |cs| && (cs[i].0 !in nodes || cs[i].1 !in nodes)
    ensures ConnectorShapes(m, nodes, cs, footAngleDeg, barWidth).None?
  {
  }
}
