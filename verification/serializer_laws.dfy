/**
 * What the browser reads back from the serializer's JSON: every field of
 * the cell, with a null string read as `""`, a null geometry as zeros, a null
 * style object as `""` and `0` leaves, and sequences in their original order
 * and length.
 */
module SerializerLaws {
  import opened Wrappers
  import opened Styles
  import opened Cells
  import opened Json
  import opened JsonGenerator
  import opened Wire

  /** The geometry the browser reads: zeros for a null geometry. */
  function WireGeometryOf(g: Option<Geometry>): WireGeometry {
    match g
    case None => WireGeometry(0.0, 0.0, 0.0, 0.0)
    case Some(p) => WireGeometry(p.x, p.y, p.width, p.height)
  }

  /** The node styles the browser reads: `""` and `0` leaves for null. */
  function WireNodeStylesOf(s: Option<NodeStyles>): WireNodeStyles {
    match s
    case None => WireNodeStyles("", "", 0.0, "", 0.0, 0.0)
    case Some(st) => WireNodeStyles(st.fillColor.GetOr(""), st.strokeColor.GetOr(""), st.strokeWidth,
                                    st.dash.GetOr(""), st.borderRadius as real, st.zIndex as real)
  }

  /** The node-label styles the browser reads: `""` and `0` leaves for null. */
  function WireNodeLabelStylesOf(s: Option<NodeLabelStyles>): WireNodeLabelStyles {
    match s
    case None => WireNodeLabelStyles("", 0.0, "", "", "")
    case Some(st) => WireNodeLabelStyles(st.fontColor.GetOr(""), st.fontSize, st.fontFamily.GetOr(""),
                                         st.labelPosition.GetOr(""), st.visibility.GetOr(""))
  }

  lemma GeometryRoundTrip(g: Option<Geometry>)
    ensures ReadGeometry(GeometryJson(g).fields) == Some(WireGeometryOf(g))
  {
    var f := GeometryJson(g).fields;
    var c := f["coordinates"].fields;
    var d := f["dimensions"].fields;
    assert Obj(f, "coordinates") == Some(c) && Obj(f, "dimensions") == Some(d);
    assert Num(c, "x") == Some(WireGeometryOf(g).x) && Num(c, "y") == Some(WireGeometryOf(g).y);
    assert Num(d, "width") == Some(WireGeometryOf(g).width) && Num(d, "height") == Some(WireGeometryOf(g).height);
  }

  lemma NodeStylesRoundTrip(s: Option<NodeStyles>)
    ensures ReadNodeStyles(NodeStylesJson(s).fields) == Some(WireNodeStylesOf(s))
  {
  }

  lemma NodeLabelStylesRoundTrip(s: Option<NodeLabelStyles>)
    ensures ReadNodeLabelStyles(NodeLabelStylesJson(s).fields) == Some(WireNodeLabelStylesOf(s))
  {
  }

  /** The node-like fields the browser reads. */
  function WireNodeDataOf(n: NodeData): WireNodeData {
    WireNodeData(n.cell.id.GetOr(""), WireGeometryOf(n.cell.geometry), n.shape.GetOr(""),
                 n.imgUrl.GetOr(""), n.movable, n.parentId.GetOr(""), n.labelText.GetOr(""),
                 WireNodeStylesOf(n.nodeStyles), WireNodeLabelStylesOf(n.nodeLabelStyles))
  }

  /** Reading the node-like keys of any object that agrees with the node's
      serialized fields on those keys recovers the node-like fields. */
  lemma NodeDataReadBack(f: map<string, Json>, n: NodeData)
    requires forall k :: k in NodeDataKeys ==> k in f && f[k] == NodeDataFields(n)[k]
    ensures ReadNodeData(f) == Some(WireNodeDataOf(n))
  {
    var g := NodeDataFields(n);
    assert "id" in NodeDataKeys && "geometry" in NodeDataKeys && "shape" in NodeDataKeys;
    assert "imgUrl" in NodeDataKeys && "movable" in NodeDataKeys && "parentId" in NodeDataKeys;
    assert "label" in NodeDataKeys && "nodeStyles" in NodeDataKeys && "nodeLabelStyles" in NodeDataKeys;
    GeometryRoundTrip(n.cell.geometry);
    NodeStylesRoundTrip(n.nodeStyles);
    NodeLabelStylesRoundTrip(n.nodeLabelStyles);
    assert Str(f, "id") == Some(n.cell.id.GetOr(""));
    assert Obj(f, "geometry") == Some(GeometryJson(n.cell.geometry).fields);
    assert Str(f, "shape") == Some(n.shape.GetOr(""));
    assert Str(f, "imgUrl") == Some(n.imgUrl.GetOr(""));
    assert Flag(f, "movable") == Some(n.movable);
    assert Str(f, "parentId") == Some(n.parentId.GetOr(""));
    assert Str(f, "label") == Some(n.labelText.GetOr(""));
    assert Obj(f, "nodeStyles") == Some(NodeStylesJson(n.nodeStyles).fields);
    assert Obj(f, "nodeLabelStyles") == Some(NodeLabelStylesJson(n.nodeLabelStyles).fields);
  }

  /** Reading back a node recovers its node-like fields (nulls read as `""`
      or `0`), its tools in order with null tools as `""` (none for a null
      list), and its port flag. */
  lemma NodeRoundTrip(n: Node)
    ensures ReadNode(GenerateJsonNode(n)).Some?
    ensures
      var w := ReadNode(GenerateJsonNode(n)).value;
      && w.data == WireNodeDataOf(n.base)
      && w.port == n.port
      && (n.tools.None? ==> w.tools == [])
      && (n.tools.Some? ==>
            && |w.tools| == |n.tools.value|
            && forall i :: 0 <= i < |n.tools.value| ==> w.tools[i] == n.tools.value[i].GetOr(""))
  {
    var j := GenerateJsonNode(n);
    NodeDataReadBack(j.fields, n.base);
    var items := j.fields["tools"].items;
    assert Arr(j.fields, "tools") == Some(items);
    assert ReadAll(items, ReadString).Some?;
    assert Flag(j.fields, "port") == Some(n.port);
  }

  /** A text node and the background serialize to exactly the fields of a
      node built on the same node data, less `tools` and `port`. */
  lemma NodeKindsShareFields(d: NodeData, tools: Option<seq<Option<string>>>, port: bool)
    ensures GenerateJsonNodeText(NodeText(d)) == GenerateJsonBackground(NodeBackground(d))
    ensures GenerateJsonNodeText(NodeText(d)).fields == GenerateJsonNode(Node(d, tools, port)).fields - {"tools", "port"}
  {
    var a := GenerateJsonNodeText(NodeText(d)).fields;
    var b := GenerateJsonNode(Node(d, tools, port)).fields - {"tools", "port"};
    assert a.Keys == b.Keys;
    assert forall k :: k in a ==> a[k] == b[k];
  }

  /** The label the browser reads for a non-null label: `""` and `0`
      style leaves when its style object is null. */
  function WireEdgeLabelOf(l: EdgeLabel): WireEdgeLabel {
    WireEdgeLabel(l.text.GetOr(""), l.distance,
      match l.styles
      case None => WireEdgeLabelStyles("", "", 0.0, "", 0.0)
      case Some(s) => WireEdgeLabelStyles(s.fillColor.GetOr(""), s.fontColor.GetOr(""), s.fontSize,
                                          s.fontFamily.GetOr(""), s.borderRadius as real))
  }

  /** The vertex the browser reads: the origin for a null vertex. */
  function WireVertexOf(v: Option<Vertex>): Point {
    match v
    case None => Point(0.0, 0.0)
    case Some(p) => Point(p.x, p.y)
  }

  /** The edge styles the browser reads: `""` and `0` leaves for null. */
  function WireEdgeStylesOf(s: Option<EdgeStyles>): WireEdgeStyles {
    match s
    case None => WireEdgeStyles("", 0.0, 0.0, 0.0, 0.0)
    case Some(st) => WireEdgeStyles(st.strokeColor.GetOr(""), st.strokeWidth, st.dash,
                                    st.borderRadius as real, st.zIndex as real)
  }

  lemma EdgeLabelRoundTrip(l: EdgeLabel)
    ensures ReadEdgeLabel(EdgeLabelJson(l)) == Some(WireEdgeLabelOf(l))
  {
    var f := EdgeLabelJson(l).fields;
    assert Obj(f, "edgeLabelStyles") == Some(EdgeLabelStylesJson(l.styles).fields);
  }

  lemma VertexRoundTrip(v: Option<Vertex>)
    ensures ReadVertex(VertexJson(v)) == Some(WireVertexOf(v))
  {
  }

  lemma EdgeStylesRoundTrip(s: Option<EdgeStyles>)
    ensures ReadEdgeStyles(EdgeStylesJson(s).fields) == Some(WireEdgeStylesOf(s))
  {
  }

  /** Reading back an edge that serialized recovers its ids (null as `""`),
      its vertices in order with a null vertex at the origin, its labels in
      order, and its styles (stroke colour `""` and numbers `0` when null). */
  lemma EdgeRoundTrip(e: Edge)
    requires GenerateJsonEdge(e).Ok?
    ensures ReadEdge(GenerateJsonEdge(e).value).Some?
    ensures
      var w := ReadEdge(GenerateJsonEdge(e).value).value;
      && w.id == e.cell.id.GetOr("")
      && w.idSource == e.idSource.GetOr("")
      && w.idTarget == e.idTarget.GetOr("")
      && (e.vertices.None? ==> w.vertices == [])
      && (e.vertices.Some? ==>
            && |w.vertices| == |e.vertices.value|
            && forall i :: 0 <= i < |e.vertices.value| ==> w.vertices[i] == WireVertexOf(e.vertices.value[i]))
      && (e.edgeLabels.None? ==> w.labels == [])
      && (e.edgeLabels.Some? ==>
            && |w.labels| == |e.edgeLabels.value|
            && forall i :: 0 <= i < |e.edgeLabels.value| ==>
                 e.edgeLabels.value[i].Some? && w.labels[i] == WireEdgeLabelOf(e.edgeLabels.value[i].value))
      && w.edgeStyles == WireEdgeStylesOf(e.edgeStyles)
  {
    var j := GenerateJsonEdge(e).value;
    var f := j.fields;
    var vs := f["vertices"].items;
    var ls := f["edgeLabels"].items;
    assert Arr(f, "vertices") == Some(vs);
    assert Arr(f, "edgeLabels") == Some(ls);
    forall i | 0 <= i < |vs|
      ensures ReadVertex(vs[i]) == Some(WireVertexOf(e.vertices.value[i]))
    {
      VertexRoundTrip(e.vertices.value[i]);
    }
    forall i | 0 <= i < |ls|
      ensures ReadEdgeLabel(ls[i]) == Some(WireEdgeLabelOf(e.edgeLabels.value[i].value))
    {
      EdgeLabelRoundTrip(e.edgeLabels.value[i].value);
    }
    EdgeStylesRoundTrip(e.edgeStyles);
    assert Obj(f, "edgeStyles") == Some(EdgeStylesJson(e.edgeStyles).fields);
    assert Str(f, "id") == Some(e.cell.id.GetOr(""));
    assert Str(f, "idSource") == Some(e.idSource.GetOr(""));
    assert Str(f, "idTarget") == Some(e.idTarget.GetOr(""));
  }

  /** Serializing a node with every optional field unset leaves no key out:
      strings read as `""`, numbers as `0`, geometry as zeros. */
  lemma BareNodeSerializesToEmptyAndZero(port: bool)
    ensures
      var bare := NodeData(Cell(None, None, None, None), None, None, false, None, None, None, None);
      var w := ReadNode(GenerateJsonNode(Node(bare, None, port))).value;
      && w.data == WireNodeData("", WireGeometry(0.0, 0.0, 0.0, 0.0), "", "", false, "", "",
                                WireNodeStyles("", "", 0.0, "", 0.0, 0.0),
                                WireNodeLabelStyles("", 0.0, "", "", ""))
      && w.tools == []
  {
    var bare := NodeData(Cell(None, None, None, None), None, None, false, None, None, None, None);
    NodeRoundTrip(Node(bare, None, port));
  }

  /** A node created at (10, 20) of size 100 x 50 with default styles reaches
      the browser with stroke colour `"black"`, z-index 1 and its position. */
  lemma DefaultNodeScenario()
    ensures
      var n := Node(NewAbstractNodeAt(Some("N1"), 10.0, 20.0, 100.0, 50.0, Some("rect")), None, false);
      var w := ReadNode(GenerateJsonNode(n)).value;
      && w.data.id == "N1"
      && w.data.nodeStyles.strokeColor == "black"
      && w.data.nodeStyles.zIndex == 1.0
      && w.data.geometry == WireGeometry(10.0, 20.0, 100.0, 50.0)
  {
    var n := Node(NewAbstractNodeAt(Some("N1"), 10.0, 20.0, 100.0, 50.0, Some("rect")), None, false);
    NodeRoundTrip(n);
  }
}
