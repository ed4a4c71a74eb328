/**
 * End to end: what the browser helpers make of a cell the Java side built,
 * styled and serialized.
 */
module PipelineLaws {
  import opened Wrappers
  import opened Text
  import opened Constants
  import opened Styles
  import opened Cells
  import opened EdgeUtilities
  import opened JsonGenerator
  import opened Wire
  import opened SerializerLaws
  import opened Frontend

  /** The browser's view of an edge that serialized. */
  function WireOf(e: Edge): WireEdge
    requires GenerateJsonEdge(e).Ok?
  {
    EdgeRoundTrip(e);
    ReadEdge(GenerateJsonEdge(e).value).value
  }

  /** The browser's view of a node. */
  function WireOfNode(n: Node): (w: WireNode)
    ensures w.data == WireNodeDataOf(n.base) && w.port == n.port
  {
    NodeRoundTrip(n);
    ReadNode(GenerateJsonNode(n)).value
  }

  /** After importing a style map, the edge is drawn with a rounded connector
      of radius 12 exactly when the map has a non-blank `rounded` entry other
      than `"0"`, and with the normal connector otherwise. */
  lemma ConnectorFollowsImportedRounding(e: Edge, m: map<string, string>, t: DoubleText)
    requires SetEdgeStyles(e, m, t).Ok? && GenerateJsonEdge(SetEdgeStyles(e, m, t).value).Ok?
    ensures var c := GetEdgeConnector(WireOf(SetEdgeStyles(e, m, t).value).edgeStyles);
      && (c.radius.Some? <==> Present(m, StyleRounded) && m[StyleRounded] != "0")
      && (c.radius.Some? ==> c == Connector("rounded", Some(12.0)))
      && (c.radius.None? ==> c == Connector("normal", None))
  {
    EdgeRoundTrip(SetEdgeStyles(e, m, t).value);
  }

  /** An edge whose labels all have non-empty text and lie on the path gets
      one label configuration per label, in order, with the label's text and
      distance. */
  lemma EveryPlacedLabelIsDrawn(e: Edge)
    requires e.edgeLabels.Some?
    requires forall i :: 0 <= i < |e.edgeLabels.value| ==>
      && e.edgeLabels.value[i].Some?
      && e.edgeLabels.value[i].value.text.Some? && e.edgeLabels.value[i].value.text.value != ""
      && 0.0 <= e.edgeLabels.value[i].value.distance <= 1.0
    ensures GenerateJsonEdge(e).Ok?
    ensures var cs := GetEdgeLabelsConfiguration(WireOf(e).labels);
      && |cs| == |e.edgeLabels.value|
      && forall i :: 0 <= i < |cs| ==>
           && Some(cs[i].text.text) == e.edgeLabels.value[i].value.text
           && cs[i].distance == e.edgeLabels.value[i].value.distance
  {
    var w := WireOf(e);
    EdgeRoundTrip(e);
    AllShownLabelsAreConfigured(w.labels);
  }

  /** An edge built with one label `cost` is drawn with that one label,
      half way along. */
  lemma LabelledEdgeIsDrawnWithItsLabel()
    ensures var e := NewEdgeWithLabel(Some("E1"), Some("n1"), Some("n2"), Some("cost"));
      && GenerateJsonEdge(e).Ok?
      && GetEdgeLabelsConfiguration(WireOf(e).labels) == [LabelConfigOf(WireEdgeLabel("cost", 0.5,
           WireEdgeLabelOf(NewEdgeLabel(Some("cost"), 0.5)).styles))]
  {
    var e := NewEdgeWithLabel(Some("E1"), Some("n1"), Some("n2"), Some("cost"));
    EveryPlacedLabelIsDrawn(e);
  }

  /** A node's label hangs below it in the browser exactly when its Java
      label position is `bottom`; a null position or null label styles
      centre it. */
  lemma NodeLabelPlacementFollowsPosition(n: Node)
    ensures var c := GetNodeLabelConfiguration(WireOfNode(n).data);
      && (BelowNode(c) <==> n.base.nodeLabelStyles.Some? && n.base.nodeLabelStyles.value.labelPosition == Some("bottom"))
      && (Centred(c) <==> !BelowNode(c))
      && c.text == n.base.labelText.GetOr("")
  {
  }

  /** A node shows a port in the browser exactly when its Java flag is set. */
  lemma PortFollowsFlag(n: Node)
    ensures GetNodePortConfiguration(WireOfNode(n).port).items != [] <==> n.port
  {
  }

  /** The browser routes an edge through its Java vertices, in order, a null
      vertex at the origin. */
  lemma VerticesReachTheBrowser(e: Edge)
    requires GenerateJsonEdge(e).Ok? && e.vertices.Some?
    ensures var vs := GetVerticesFormat(WireOf(e).vertices);
      && |vs| == |e.vertices.value|
      && forall i :: 0 <= i < |vs| ==> vs[i] == WireVertexOf(e.vertices.value[i])
  {
    EdgeRoundTrip(e);
  }
}
