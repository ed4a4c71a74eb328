/**
 * The browser's view of the wire JSON: the TypeScript interfaces the front
 * end declares for nodes, edges, labels and their styles, and the reading of
 * a JSON value into them. A reader returns `None` when a key is missing or
 * holds a value of the wrong kind; it is the partner against which the
 * serializer's output is checked.
 */
module Wire {
  import opened Wrappers
  import opened Json

  /** `Coordinate` and `Vertex`. */
  datatype Point = Point(x: real, y: real)

  /** `Geometry`: coordinates and dimensions, flattened. */
  datatype WireGeometry = WireGeometry(x: real, y: real, width: real, height: real)

  /** `X6NodeStyles`. */
  datatype WireNodeStyles = WireNodeStyles(
    fillColor: string, strokeColor: string, strokeWidth: real,
    dash: string, borderRadius: real, zIndex: real)

  /** `X6NodeLabelStyles`. */
  datatype WireNodeLabelStyles = WireNodeLabelStyles(
    fontColor: string, fontSize: real, fontFamily: string,
    labelPosition: string, visibility: string)

  /** `X6AbstractNode`: what text nodes and the background carry. */
  datatype WireNodeData = WireNodeData(
    id: string, geometry: WireGeometry, shape: string, imgUrl: string,
    movable: bool, parentId: string, labelText: string,
    nodeStyles: WireNodeStyles, nodeLabelStyles: WireNodeLabelStyles)

  /** `X6Node`: the node fields plus tools and port. */
  datatype WireNode = WireNode(data: WireNodeData, tools: seq<string>, port: bool)

  /** `X6EdgeLabelStyles`. */
  datatype WireEdgeLabelStyles = WireEdgeLabelStyles(
    fillColor: string, fontColor: string, fontSize: real,
    fontFamily: string, borderRadius: real)

  /** `X6EdgeLabel`. */
  datatype WireEdgeLabel = WireEdgeLabel(text: string, distance: real, styles: WireEdgeLabelStyles)

  /** `X6EdgeStyles`. */
  datatype WireEdgeStyles = WireEdgeStyles(
    strokeColor: string, strokeWidth: real, dash: real,
    borderRadius: real, zIndex: real)

  /** `X6Edge`. */
  datatype WireEdge = WireEdge(
    id: string, idSource: string, idTarget: string,
    vertices: seq<Point>, labels: seq<WireEdgeLabel>, edgeStyles: WireEdgeStyles)

  function Str(f: map<string, Json>, k: string): Option<string> {
    if k in f && f[k].JString? then Some(f[k].str) else None
  }

  function Num(f: map<string, Json>, k: string): Option<real> {
    if k in f && f[k].JNumber? then Some(f[k].num) else None
  }

  function Flag(f: map<string, Json>, k: string): Option<bool> {
    if k in f && f[k].JBool? then Some(f[k].truth) else None
  }

  function Obj(f: map<string, Json>, k: string): Option<map<string, Json>> {
    if k in f && f[k].JObject? then Some(f[k].fields) else None
  }

  function Arr(f: map<string, Json>, k: string): Option<seq<Json>> {
    if k in f && f[k].JArray? then Some(f[k].items) else None
  }

  /** Reads every element of an array with `read`; fails if any element
      fails. */
  function ReadAll<T>(items: seq<Json>, read: Json -> Option<T>): (r: Option<seq<T>>)
    ensures r.Some? <==> forall i :: 0 <= i < |items| ==> read(items[i]).Some?
    ensures r.Some? ==> |r.value| == |items|
    ensures r.Some? ==> forall i :: 0 <= i < |items| ==> r.value[i] == read(items[i]).value
  {
    if forall i :: 0 <= i < |items| ==> read(items[i]).Some? then
      Some(seq(|items|, i requires 0 <= i < |items| => read(items[i]).value))
    else None
  }

  function ReadString(j: Json): Option<string> {
    if j.JString? then Some(j.str) else None
  }

  function ReadGeometry(f: map<string, Json>): Option<WireGeometry> {
    var c :- Obj(f, "coordinates");
    var d :- Obj(f, "dimensions");
    var x :- Num(c, "x");
    var y :- Num(c, "y");
    var w :- Num(d, "width");
    var h :- Num(d, "height");
    Some(WireGeometry(x, y, w, h))
  }

  function ReadNodeStyles(f: map<string, Json>): Option<WireNodeStyles> {
    var fill :- Str(f, "fillColor");
    var stroke :- Str(f, "strokeColor");
    var width :- Num(f, "strokeWidth");
    var dash :- Str(f, "dash");
    var radius :- Num(f, "borderRadius");
    var z :- Num(f, "zIndex");
    Some(WireNodeStyles(fill, stroke, width, dash, radius, z))
  }

  function ReadNodeLabelStyles(f: map<string, Json>): Option<WireNodeLabelStyles> {
    var color :- Str(f, "fontColor");
    var size :- Num(f, "fontSize");
    var family :- Str(f, "fontFamily");
    var position :- Str(f, "labelPosition");
    var visibility :- Str(f, "visibility");
    Some(WireNodeLabelStyles(color, size, family, position, visibility))
  }

  function ReadNodeData(f: map<string, Json>): Option<WireNodeData> {
    var id :- Str(f, "id");
    var g :- Obj(f, "geometry");
    var geometry :- ReadGeometry(g);
    var shape :- Str(f, "shape");
    var imgUrl :- Str(f, "imgUrl");
    var movable :- Flag(f, "movable");
    var parentId :- Str(f, "parentId");
    var text :- Str(f, "label");
    var ns :- Obj(f, "nodeStyles");
    var nodeStyles :- ReadNodeStyles(ns);
    var nls :- Obj(f, "nodeLabelStyles");
    var labelStyles :- ReadNodeLabelStyles(nls);
    Some(WireNodeData(id, geometry, shape, imgUrl, movable, parentId, text, nodeStyles, labelStyles))
  }

  /** Reads a node object, tools and port included. */
  function ReadNode(j: Json): Option<WireNode> {
    if !j.JObject? then None
    else
      var data :- ReadNodeData(j.fields);
      var items :- Arr(j.fields, "tools");
      var tools :- ReadAll(items, ReadString);
      var port :- Flag(j.fields, "port");
      Some(WireNode(data, tools, port))
  }

  function ReadVertex(j: Json): Option<Point> {
    if !j.JObject? then None
    else
      var x :- Num(j.fields, "x");
      var y :- Num(j.fields, "y");
      Some(Point(x, y))
  }

  function ReadEdgeLabelStyles(f: map<string, Json>): Option<WireEdgeLabelStyles> {
    var fill :- Str(f, "fillColor");
    var color :- Str(f, "fontColor");
    var size :- Num(f, "fontSize");
    var family :- Str(f, "fontFamily");
    var radius :- Num(f, "borderRadius");
    Some(WireEdgeLabelStyles(fill, color, size, family, radius))
  }

  function ReadEdgeLabel(j: Json): Option<WireEdgeLabel> {
    if !j.JObject? then None
    else
      var text :- Str(j.fields, "label");
      var distance :- Num(j.fields, "distance");
      var s :- Obj(j.fields, "edgeLabelStyles");
      var styles :- ReadEdgeLabelStyles(s);
      Some(WireEdgeLabel(text, distance, styles))
  }

  function ReadEdgeStyles(f: map<string, Json>): Option<WireEdgeStyles> {
    var stroke :- Str(f, "strokeColor");
    var width :- Num(f, "strokeWidth");
    var dash :- Num(f, "dash");
    var radius :- Num(f, "borderRadius");
    var z :- Num(f, "zIndex");
    Some(WireEdgeStyles(stroke, width, dash, radius, z))
  }

  /** Reads an edge object. */
  function ReadEdge(j: Json): Option<WireEdge> {
    if !j.JObject? then None
    else
      var id :- Str(j.fields, "id");
      var source :- Str(j.fields, "idSource");
      var target :- Str(j.fields, "idTarget");
      var vs :- Arr(j.fields, "vertices");
      var vertices :- ReadAll(vs, ReadVertex);
      var ls :- Arr(j.fields, "edgeLabels");
      var labels :- ReadAll(ls, ReadEdgeLabel);
      var s :- Obj(j.fields, "edgeStyles");
      var styles :- ReadEdgeStyles(s);
      Some(WireEdge(id, source, target, vertices, labels, styles))
  }
}
