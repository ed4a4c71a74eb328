/**
 * The cell model: nodes (`X6AbstractNode` and its variants), edges with
 * labels (`X6Edge`) and label-less edges (`X6EdgeBasic`).
 *
 * The Java class hierarchy (abstract cell, abstract node, concrete node
 * kinds) becomes records that embed the shared part: every kind carries a
 * `Cell`, every node kind a `NodeData`. Lists are sequences; a list
 * reference that may be null is an `Option` of a sequence, and a list
 * element that may be null is an `Option` too.
 */
module Cells {
  import opened Wrappers
  import opened Constants
  import opened Styles

  /** Position and size of a cell. */
  datatype Geometry = Geometry(x: real, y: real, width: real, height: real)

  /** An intermediate routing point of an edge. */
  datatype Vertex = Vertex(x: real, y: real)

  /** The fields every cell has (`X6Cell`): its id, its kind, its geometry
      and the string-keyed style map the style utilities export into. */
  datatype Cell = Cell(
    id: Option<string>,
    cellType: Option<CellType>,
    geometry: Option<Geometry>,
    styles: Option<map<string, string>>)

  /** What the `X6Cell` constructors leave behind. That class is not part of
      this model: the cell is taken to carry the id and geometry it was given,
      no kind yet and a null style map. */
  function BaseCell(id: Option<string>, geometry: Option<Geometry>): Cell {
    Cell(id, None, geometry, None)
  }

  /** The fields shared by every node kind (`X6AbstractNode`). */
  datatype NodeData = NodeData(
    cell: Cell,
    shape: Option<string>,
    imgUrl: Option<string>,
    movable: bool,
    parentId: Option<string>,
    labelText: Option<string>,
    nodeStyles: Option<NodeStyles>,
    nodeLabelStyles: Option<NodeLabelStyles>)

  /** A plain node (`X6Node`): the node fields plus its tool names and
      whether it shows a connection port. */
  datatype Node = Node(base: NodeData, tools: Option<seq<Option<string>>>, port: bool)

  /** A text node (`X6NodeText`): a label drawn below its parent node. */
  datatype NodeText = NodeText(base: NodeData)

  /** The canvas background (`X6NodeBackground`). */
  datatype NodeBackground = NodeBackground(base: NodeData)

  /** `new X6AbstractNode()`: a node with no id, movable, and fresh default
      style objects. */
  function NewAbstractNode(): (n: NodeData)
    ensures n.cell.cellType == Some(NodeCell)
    ensures n.movable
    ensures n.nodeStyles == Some(NewNodeStyles())
    ensures n.nodeLabelStyles == Some(DefaultNodeLabelStyles)
    ensures n.cell.id.None?
  {
    NodeData(BaseCell(None, None).(cellType := Some(NodeCell)),
             None, None, true, None, None,
             Some(NewNodeStyles()), Some(DefaultNodeLabelStyles))
  }

  /** `new X6AbstractNode(id, x, y, width, height, shape)`: a positioned node
      whose optional text fields start empty rather than null. */
  function NewAbstractNodeAt(id: Option<string>, x: real, y: real, width: real, height: real,
                             shape: Option<string>): (n: NodeData)
    ensures n.cell.id == id
    ensures n.cell.geometry == Some(Geometry(x, y, width, height))
    ensures n.cell.cellType == Some(NodeCell)
    ensures n.shape == shape
    ensures n.imgUrl == Some("") && n.parentId == Some("") && n.labelText == Some("")
    ensures n.movable
    ensures n.nodeStyles == Some(NewNodeStyles())
    ensures n.nodeLabelStyles == Some(DefaultNodeLabelStyles)
  {
    NodeData(BaseCell(id, Some(Geometry(x, y, width, height))).(cellType := Some(NodeCell)),
             shape, Some(""), true, Some(""), Some(""),
             Some(NewNodeStyles()), Some(DefaultNodeLabelStyles))
  }

  /** `new X6NodeBackground()`, taken to be the default node. */
  function NewNodeBackground(): NodeBackground {
    NodeBackground(NewAbstractNode())
  }

  /** One label of an edge (`X6EdgeLabel`): its text, its position along the
      edge as a fraction of the path, and its styles. */
  datatype EdgeLabel = EdgeLabel(text: Option<string>, distance: real, styles: Option<EdgeLabelStyles>)

  /** `new X6EdgeLabel(label, distance)`. That class is not part of this
      model; its constructor is taken to fill in default label styles. */
  function NewEdgeLabel(text: Option<string>, distance: real): EdgeLabel {
    EdgeLabel(text, distance, Some(NewEdgeLabelStyles()))
  }

  /** An edge with labels (`X6Edge`). */
  datatype Edge = Edge(
    cell: Cell,
    idSource: Option<string>,
    idTarget: Option<string>,
    vertices: Option<seq<Option<Vertex>>>,
    edgeLabels: Option<seq<Option<EdgeLabel>>>,
    edgeStyles: Option<EdgeStyles>)

  /** Whether `e` is a freshly constructed edge of any of the four
      constructors: an edge kind, no vertices and default edge styles. */
  predicate FreshEdgeShape(e: Edge) {
    && e.cell.cellType == Some(EdgeCell)
    && e.vertices == Some([])
    && e.edgeStyles == Some(NewEdgeStyles())
  }

  /** `new X6Edge()`. */
  function NewEdge(): (e: Edge)
    ensures FreshEdgeShape(e)
    ensures e.edgeLabels == Some([])
    ensures e.cell.id.None? && e.idSource.None? && e.idTarget.None?
  {
    Edge(BaseCell(None, None).(cellType := Some(EdgeCell)), None, None,
         Some([]), Some([]), Some(NewEdgeStyles()))
  }

  /** `new X6Edge(id, idSource, idTarget)`: an edge without labels. */
  function NewEdgeBetween(id: Option<string>, idSource: Option<string>, idTarget: Option<string>): (e: Edge)
    ensures FreshEdgeShape(e)
    ensures e.cell.id == id && e.idSource == idSource && e.idTarget == idTarget
    ensures e.edgeLabels == Some([])
  {
    Edge(BaseCell(id, None).(cellType := Some(EdgeCell)), idSource, idTarget,
         Some([]), Some([]), Some(NewEdgeStyles()))
  }

  /** `new X6Edge(id, idSource, idTarget, label)`: one label, halfway along. */
  function NewEdgeWithLabel(id: Option<string>, idSource: Option<string>, idTarget: Option<string>,
                            text: Option<string>): (e: Edge)
    ensures FreshEdgeShape(e)
    ensures e.cell.id == id && e.idSource == idSource && e.idTarget == idTarget
    ensures e.edgeLabels.Some? && |e.edgeLabels.value| == 1
    ensures e.edgeLabels.value[0] == Some(NewEdgeLabel(text, 0.5))
  {
    AddLabel(NewEdgeBetween(id, idSource, idTarget), text, 0.5)
  }

  /** `new X6Edge(id, idSource, idTarget, edgeLabels)`: the caller's list,
      null or not, becomes the label list as it is. */
  function NewEdgeWithLabels(id: Option<string>, idSource: Option<string>, idTarget: Option<string>,
                             edgeLabels: Option<seq<Option<EdgeLabel>>>): (e: Edge)
    ensures FreshEdgeShape(e)
    ensures e.cell.id == id && e.idSource == idSource && e.idTarget == idTarget
    ensures e.edgeLabels == edgeLabels
  {
    Edge(BaseCell(id, None).(cellType := Some(EdgeCell)), idSource, idTarget,
         Some([]), edgeLabels, Some(NewEdgeStyles()))
  }

  /** `addLabel`: appends a new label at the end of a non-null list, without
      looking for duplicates; does nothing when the list is null. */
  function AddLabel(e: Edge, text: Option<string>, distance: real): (r: Edge)
    ensures e.edgeLabels.None? ==> r == e
    ensures e.edgeLabels.Some? ==>
      && r.edgeLabels.Some?
      && |r.edgeLabels.value| == |e.edgeLabels.value| + 1
      && r.edgeLabels.value[..|e.edgeLabels.value|] == e.edgeLabels.value
      && r.edgeLabels.value[|e.edgeLabels.value|] == Some(NewEdgeLabel(text, distance))
    ensures r.(edgeLabels := e.edgeLabels) == e
  {
    match e.edgeLabels
    case None => e
    case Some(ls) => e.(edgeLabels := Some(ls + [Some(NewEdgeLabel(text, distance))]))
  }

  /** `getLabelAt`: the label at `pos`, or null when the list is null, `pos`
      is past its end, or the element there is null. A negative `pos` on a
      non-null list reaches `List.get` and throws. */
  function GetLabelAt(e: Edge, pos: int): (r: Result<Option<EdgeLabel>>)
    ensures r.Err? <==> e.edgeLabels.Some? && pos < 0
    ensures r.Err? ==> r.error == IndexOutOfBounds
    ensures (exists l :: r == Ok(Some(l))) <==>
      e.edgeLabels.Some? && 0 <= pos < |e.edgeLabels.value| && e.edgeLabels.value[pos].Some?
    ensures r.Ok? && r.value.Some? ==> r.value == e.edgeLabels.value[pos]
  {
    match e.edgeLabels
    case None => Ok(None)
    case Some(ls) =>
      if |ls| <= pos then Ok(None)
      else if pos < 0 then Err(IndexOutOfBounds)
      else Ok(ls[pos])
  }

  /** Replaces the label at `pos` of a non-null label list: the in-place
      mutation a style operation makes to a label it obtained from `getLabelAt`. */
  function ReplaceLabelAt(e: Edge, pos: nat, l: EdgeLabel): (r: Edge)
    requires e.edgeLabels.Some? && pos < |e.edgeLabels.value|
    ensures r.edgeLabels.Some? && |r.edgeLabels.value| == |e.edgeLabels.value|
    ensures r.edgeLabels.value[pos] == Some(l)
    ensures forall i :: 0 <= i < |e.edgeLabels.value| && i != pos ==> r.edgeLabels.value[i] == e.edgeLabels.value[i]
    ensures r.(edgeLabels := e.edgeLabels) == e
  {
    e.(edgeLabels := Some(e.edgeLabels.value[pos := Some(l)]))
  }

  /** A label-less edge (`X6EdgeBasic`). */
  datatype EdgeBasic = EdgeBasic(
    cell: Cell,
    idSource: Option<string>,
    idTarget: Option<string>,
    edgeStyles: Option<EdgeStyles>,
    vertices: Option<seq<Option<Vertex>>>)

  /** `new X6EdgeBasic()`. */
  function NewEdgeBasic(): (e: EdgeBasic)
    ensures e.cell.cellType == Some(EdgeCell)
    ensures e.vertices == Some([])
    ensures e.edgeStyles == Some(NewEdgeStyles())
  {
    EdgeBasic(BaseCell(None, None).(cellType := Some(EdgeCell)), None, None,
              Some(NewEdgeStyles()), Some([]))
  }

  /** `new X6EdgeBasic(id, idSource, idTarget)`. */
  function NewEdgeBasicBetween(id: Option<string>, idSource: Option<string>, idTarget: Option<string>): (e: EdgeBasic)
    ensures e.cell.cellType == Some(EdgeCell)
    ensures e.cell.id == id && e.idSource == idSource && e.idTarget == idTarget
    ensures e.vertices == Some([])
    ensures e.edgeStyles == Some(NewEdgeStyles())
  {
    EdgeBasic(BaseCell(id, None).(cellType := Some(EdgeCell)), idSource, idTarget,
              Some(NewEdgeStyles()), Some([]))
  }

  /** `setIdSource`: changes the source and nothing else. */
  function SetBasicIdSource(e: EdgeBasic, idSource: Option<string>): (r: EdgeBasic)
    ensures r.idSource == idSource
    ensures r.cell == e.cell && r.idTarget == e.idTarget
    ensures r.edgeStyles == e.edgeStyles && r.vertices == e.vertices
  {
    e.(idSource := idSource)
  }

  /** `setIdTarget`: changes the target and nothing else. */
  function SetBasicIdTarget(e: EdgeBasic, idTarget: Option<string>): (r: EdgeBasic)
    ensures r.idTarget == idTarget
    ensures r.cell == e.cell && r.idSource == e.idSource
    ensures r.edgeStyles == e.edgeStyles && r.vertices == e.vertices
  {
    e.(idTarget := idTarget)
  }

  /** `setEdgeStyles`: changes the styles and nothing else. */
  function SetBasicEdgeStyles(e: EdgeBasic, edgeStyles: Option<EdgeStyles>): (r: EdgeBasic)
    ensures r.edgeStyles == edgeStyles
    ensures r.cell == e.cell && r.idSource == e.idSource
    ensures r.idTarget == e.idTarget && r.vertices == e.vertices
  {
    e.(edgeStyles := edgeStyles)
  }

  /** `setVertices`: changes the vertex list and nothing else. */
  function SetBasicVertices(e: EdgeBasic, vertices: Option<seq<Option<Vertex>>>): (r: EdgeBasic)
    ensures r.vertices == vertices
    ensures r.cell == e.cell && r.idSource == e.idSource
    ensures r.idTarget == e.idTarget && r.edgeStyles == e.edgeStyles
  {
    e.(vertices := vertices)
  }

  /** `addVertex`: appends at the end of the list, keeping duplicates; a null
      list (left by `setVertices(null)`) makes it throw. */
  function AddVertex(e: EdgeBasic, v: Option<Vertex>): (r: Result<EdgeBasic>)
    ensures r.Err? <==> e.vertices.None?
    ensures r.Ok? ==>
      && r.value.vertices.Some?
      && |r.value.vertices.value| == |e.vertices.value| + 1
      && r.value.vertices.value[..|e.vertices.value|] == e.vertices.value
      && r.value.vertices.value[|e.vertices.value|] == v
      && r.value.(vertices := e.vertices) == e
  {
    match e.vertices
    case None => Err(NullPointer)
    case Some(vs) => Ok(e.(vertices := Some(vs + [v])))
  }

  /** Calls `addVertex` once per element of `vs`, in order: the edge ends up
      with its old vertices followed by exactly `vs`, duplicates included. */
  method AddVertices(e: EdgeBasic, vs: seq<Option<Vertex>>) returns (r: Result<EdgeBasic>)
    ensures e.vertices.None? && |vs| > 0 ==> r == Err(NullPointer)
    ensures e.vertices.Some? || |vs| == 0 ==> r == Ok(e.(vertices := if |vs| == 0 then e.vertices else Some(e.vertices.value + vs)))
  {
    var cur := e;
    var i := 0;
    assert e.vertices.Some? ==> e.vertices.value + vs[..0] == e.vertices.value;
    while i < |vs|
      invariant 0 <= i <= |vs|
      invariant e.vertices.None? ==> i == 0 && cur == e
      invariant e.vertices.Some? ==> cur == e.(vertices := Some(e.vertices.value + vs[..i]))
    {
      var step := AddVertex(cur, vs[i]);
      if step.Err? {
        return Err(step.error);
      }
      assert e.vertices.value + vs[..i + 1] == (e.vertices.value + vs[..i]) + [vs[i]];
      cur := step.value;
      i := i + 1;
    }
    if e.vertices.Some? {
      assert vs[..i] == vs;
      assert |vs| == 0 ==> e.vertices.value + vs == e.vertices.value;
    }
    return Ok(cur);
  }
}
