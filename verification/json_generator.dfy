/**
 * The serializer (`JsonGenerator`): turns each kind of cell into the JSON
 * sent to the browser. Every nullable string becomes `""`, every numeric
 * field of a null object `0`, and every known key is always present, because
 * the browser side does no null handling of its own. Being a function, the
 * serializer only reads its input.
 */
module JsonGenerator {
  import opened Wrappers
  import opened Styles
  import opened Cells
  import opened Json

  /** The `s != null ? s : ""` idiom. */
  function OrEmpty(s: Option<string>): string {
    s.GetOr("")
  }

  /** Keys every node-like object carries. */
  const NodeDataKeys: set<string> :=
    {"id", "geometry", "shape", "imgUrl", "movable", "parentId", "label", "nodeStyles", "nodeLabelStyles"}

  /** Keys of a node object: the node-like keys plus `tools` and `port`. */
  const NodeKeys: set<string> := NodeDataKeys + {"tools", "port"}

  const GeometryKeys: set<string> := {"coordinates", "dimensions"}
  const NodeStyleKeys: set<string> := {"fillColor", "strokeColor", "strokeWidth", "dash", "borderRadius", "zIndex"}
  const NodeLabelStyleKeys: set<string> := {"fontColor", "fontSize", "fontFamily", "labelPosition", "visibility"}
  const EdgeKeys: set<string> := {"id", "idSource", "idTarget", "vertices", "edgeLabels", "edgeStyles"}
  const EdgeLabelKeys: set<string> := {"label", "distance", "edgeLabelStyles"}
  const EdgeLabelStyleKeys: set<string> := {"fillColor", "fontColor", "fontSize", "fontFamily", "borderRadius"}
  const EdgeStyleKeys: set<string> := {"strokeColor", "strokeWidth", "dash", "borderRadius", "zIndex"}

  /** `{coordinates: {x, y}, dimensions: {width, height}}`, all zero for a
      null geometry. */
  function GeometryJson(g: Option<Geometry>): (r: Json)
    ensures r.JObject? && r.fields.Keys == GeometryKeys
  {
    var x := if g.Some? then g.value.x else 0.0;
    var y := if g.Some? then g.value.y else 0.0;
    var w := if g.Some? then g.value.width else 0.0;
    var h := if g.Some? then g.value.height else 0.0;
    JObject(map["coordinates" := JObject(map["x" := JNumber(x), "y" := JNumber(y)]),
                "dimensions" := JObject(map["width" := JNumber(w), "height" := JNumber(h)])])
  }

  /** The `tools` array: one string per tool, in order, null tools as `""`. */
  function ToolItems(tools: seq<Option<string>>): (r: seq<Json>)
    ensures |r| == |tools|
    ensures forall i :: 0 <= i < |tools| ==> r[i] == JString(OrEmpty(tools[i]))
  {
    if tools == [] then [] else [JString(OrEmpty(tools[0]))] + ToolItems(tools[1..])
  }

  /** `nodeStyles`: string leaves `""` and numeric leaves `0` for a null
      style object or a null field. */
  function NodeStylesJson(s: Option<NodeStyles>): (r: Json)
    ensures r.JObject? && r.fields.Keys == NodeStyleKeys
  {
    match s
    case None =>
      JObject(map["fillColor" := JString(""), "strokeColor" := JString(""),
                  "strokeWidth" := JNumber(0.0), "dash" := JString(""),
                  "borderRadius" := JNumber(0.0), "zIndex" := JNumber(0.0)])
    case Some(st) =>
      JObject(map["fillColor" := JString(OrEmpty(st.fillColor)),
                  "strokeColor" := JString(OrEmpty(st.strokeColor)),
                  "strokeWidth" := JNumber(st.strokeWidth),
                  "dash" := JString(OrEmpty(st.dash)),
                  "borderRadius" := JNumber(st.borderRadius as real),
                  "zIndex" := JNumber(st.zIndex as real)])
  }

  /** `nodeLabelStyles`, with the same null policy. */
  function NodeLabelStylesJson(s: Option<NodeLabelStyles>): (r: Json)
    ensures r.JObject? && r.fields.Keys == NodeLabelStyleKeys
  {
    match s
    case None =>
      JObject(map["fontColor" := JString(""), "fontSize" := JNumber(0.0),
                  "fontFamily" := JString(""), "labelPosition" := JString(""),
                  "visibility" := JString("")])
    case Some(st) =>
      JObject(map["fontColor" := JString(OrEmpty(st.fontColor)),
                  "fontSize" := JNumber(st.fontSize),
                  "fontFamily" := JString(OrEmpty(st.fontFamily)),
                  "labelPosition" := JString(OrEmpty(st.labelPosition)),
                  "visibility" := JString(OrEmpty(st.visibility))])
  }

  /** The keys the three node serializers share. */
  function NodeDataFields(n: NodeData): (f: map<string, Json>)
    ensures f.Keys == NodeDataKeys
  {
    map["id" := JString(OrEmpty(n.cell.id)),
        "geometry" := GeometryJson(n.cell.geometry),
        "shape" := JString(OrEmpty(n.shape)),
        "imgUrl" := JString(OrEmpty(n.imgUrl)),
        "movable" := JBool(n.movable),
        "parentId" := JString(OrEmpty(n.parentId)),
        "label" := JString(OrEmpty(n.labelText)),
        "nodeStyles" := NodeStylesJson(n.nodeStyles),
        "nodeLabelStyles" := NodeLabelStylesJson(n.nodeLabelStyles)]
  }

  /** `generateJsonNode`. */
  function GenerateJsonNode(node: Node): (r: Json)
    ensures r.JObject? && r.fields.Keys == NodeKeys
  {
    var tools := if node.tools.Some? then ToolItems(node.tools.value) else [];
    JObject(NodeDataFields(node.base)["tools" := JArray(tools)]["port" := JBool(node.port)])
  }

  /** `generateJsonNodeText`: the node keys without `tools` and `port`. */
  function GenerateJsonNodeText(text: NodeText): (r: Json)
    ensures r.JObject? && r.fields.Keys == NodeKeys - {"tools", "port"}
  {
    JObject(NodeDataFields(text.base))
  }

  /** `generateJsonBackground`: the same keys as a text node. */
  function GenerateJsonBackground(background: NodeBackground): (r: Json)
    ensures r.JObject? && r.fields.Keys == NodeKeys - {"tools", "port"}
  {
    JObject(NodeDataFields(background.base))
  }

  /** One vertex as `{x, y}`; a null vertex as `{x: 0, y: 0}`. */
  function VertexJson(v: Option<Vertex>): Json {
    match v
    case None => JObject(map["x" := JNumber(0.0), "y" := JNumber(0.0)])
    case Some(p) => JObject(map["x" := JNumber(p.x), "y" := JNumber(p.y)])
  }

  /** The `vertices` array, in order. */
  function VertexItems(vs: seq<Option<Vertex>>): (r: seq<Json>)
    ensures |r| == |vs|
    ensures forall i :: 0 <= i < |vs| ==> r[i] == VertexJson(vs[i])
  {
    if vs == [] then [] else [VertexJson(vs[0])] + VertexItems(vs[1..])
  }

  /** A label's style object, `""` and `0` leaves when it is null. */
  function EdgeLabelStylesJson(s: Option<EdgeLabelStyles>): (r: Json)
    ensures r.JObject? && r.fields.Keys == EdgeLabelStyleKeys
  {
    match s
    case None =>
      JObject(map["fillColor" := JString(""), "fontColor" := JString(""),
                  "fontSize" := JNumber(0.0), "fontFamily" := JString(""),
                  "borderRadius" := JNumber(0.0)])
    case Some(st) =>
      JObject(map["fillColor" := JString(OrEmpty(st.fillColor)),
                  "fontColor" := JString(OrEmpty(st.fontColor)),
                  "fontSize" := JNumber(st.fontSize),
                  "fontFamily" := JString(OrEmpty(st.fontFamily)),
                  "borderRadius" := JNumber(st.borderRadius as real)])
  }

  /** One non-null label with its full style object. */
  function EdgeLabelJson(l: EdgeLabel): (r: Json)
    ensures r.JObject? && r.fields.Keys == EdgeLabelKeys
  {
    JObject(map["label" := JString(OrEmpty(l.text)),
                "distance" := JNumber(l.distance),
                "edgeLabelStyles" := EdgeLabelStylesJson(l.styles)])
  }

  /** The `edgeLabels` array, in order. A null element throws: its text is
      read before the null checks that follow. */
  function LabelItems(ls: seq<Option<EdgeLabel>>): (r: Result<seq<Json>>)
    ensures r.Err? <==> exists i :: 0 <= i < |ls| && ls[i].None?
    ensures r.Err? ==> r.error == NullPointer
    ensures r.Ok? ==> |r.value| == |ls|
    ensures r.Ok? ==> forall i :: 0 <= i < |ls| ==> ls[i].Some? && r.value[i] == EdgeLabelJson(ls[i].value)
  {
    if ls == [] then Ok([])
    else match ls[0]
      case None => Err(NullPointer)
      case Some(l) =>
        var rest :- LabelItems(ls[1..]);
        assert forall i :: 1 <= i < |ls| ==> ls[i] == ls[1..][i - 1];
        Ok([EdgeLabelJson(l)] + rest)
  }

  /** `edgeStyles`: stroke colour `""` and numeric leaves `0` when null. */
  function EdgeStylesJson(s: Option<EdgeStyles>): (r: Json)
    ensures r.JObject? && r.fields.Keys == EdgeStyleKeys
  {
    match s
    case None =>
      JObject(map["strokeColor" := JString(""), "strokeWidth" := JNumber(0.0),
                  "dash" := JNumber(0.0), "borderRadius" := JNumber(0.0),
                  "zIndex" := JNumber(0.0)])
    case Some(st) =>
      JObject(map["strokeColor" := JString(OrEmpty(st.strokeColor)),
                  "strokeWidth" := JNumber(st.strokeWidth),
                  "dash" := JNumber(st.dash),
                  "borderRadius" := JNumber(st.borderRadius as real),
                  "zIndex" := JNumber(st.zIndex as real)])
  }

  /** `generateJsonEdge`: throws exactly when the label list holds a null
      element. */
  function GenerateJsonEdge(edge: Edge): (r: Result<Json>)
    ensures r.Err? <==> edge.edgeLabels.Some? && exists i :: 0 <= i < |edge.edgeLabels.value| && edge.edgeLabels.value[i].None?
    ensures r.Ok? ==> r.value.JObject? && r.value.fields.Keys == EdgeKeys
  {
    var vertices := if edge.vertices.Some? then VertexItems(edge.vertices.value) else [];
    var labels :- if edge.edgeLabels.Some? then LabelItems(edge.edgeLabels.value) else Ok([]);
    Ok(JObject(map["id" := JString(OrEmpty(edge.cell.id)),
                   "idSource" := JString(OrEmpty(edge.idSource)),
                   "idTarget" := JString(OrEmpty(edge.idTarget)),
                   "vertices" := JArray(vertices),
                   "edgeLabels" := JArray(labels),
                   "edgeStyles" := EdgeStylesJson(edge.edgeStyles)]))
  }
}
