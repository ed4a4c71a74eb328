/**
 * What the registry keeps true across the operations of `Op` (drawing,
 * removal and clearing; callers that change the lists through their getters
 * and setters are outside it): a background is always present, and, as long
 * as every cell drawn has an id, no list holds a null id or two cells with
 * the same id, and no operation except drawing an edge with a null label
 * throws. Also: drawing a cell twice registers it once, and removal by an id
 * that is absent changes nothing.
 */
module RegistryLaws {
  import opened Wrappers
  import opened Cells
  import opened JsonGenerator
  import opened Lookup
  import opened Registry

  /** A registry operation a caller of the component can make. */
  datatype Op =
    | DrawNodeOp(node: Node)
    | DrawNodeCenterOp(node: Node)
    | DrawTextOp(text: NodeText)
    | DrawEdgeOp(edge: Edge)
    | DrawBackgroundOp(background: NodeBackground)
    | RemoveCellOp(id: Option<string>)
    | RemoveBackgroundOp
    | CleanGraphOp

  /** The effect of one operation. */
  function Apply(g: Graph, op: Op): Result<Graph> {
    match op
    case DrawNodeOp(n) => DrawNode(g, n)
    case DrawNodeCenterOp(n) => Ok(DrawNodeCenter(g, n))
    case DrawTextOp(t) => DrawText(g, t)
    case DrawEdgeOp(e) => DrawEdge(g, e)
    case DrawBackgroundOp(b) => DrawNodeBackground(g, b)
    case RemoveCellOp(id) => RemoveCell(g, id)
    case RemoveBackgroundOp => RemoveNodeBackground(g)
    case CleanGraphOp => Ok(CleanGraph(g))
  }

  /** An operation that draws only cells with an id. */
  predicate IdentifiedOp(op: Op) {
    match op
    case DrawNodeOp(n) => NodeId(n).Some?
    case DrawTextOp(t) => TextId(t).Some?
    case DrawEdgeOp(e) => EdgeId(e).Some?
    case _ => true
  }

  /** A registry in good order. */
  predicate Healthy(g: Graph) {
    && g.background.Some?
    && NoNullIds(g.nodes, NodeId) && UniqueIds(g.nodes, NodeId)
    && NoNullIds(g.texts, TextId) && UniqueIds(g.texts, TextId)
    && NoNullIds(g.edges, EdgeId) && UniqueIds(g.edges, EdgeId)
  }

  lemma NewRegistryIsHealthy()
    ensures Healthy(NewRegistry())
  {
  }

  /** A healthy registry stays healthy under every operation that draws
      only identified cells, and only drawing an unserializable edge throws. */
  lemma OperationsKeepRegistryHealthy(g: Graph, op: Op)
    requires Healthy(g) && IdentifiedOp(op)
    ensures Apply(g, op).Ok? <==> !(op.DrawEdgeOp? && GenerateJsonEdge(op.edge).Err?)
    ensures Apply(g, op).Ok? ==> Healthy(Apply(g, op).value)
  {
    match op
    case DrawNodeOp(n) =>
      if GetNodeById(g, NodeId(n)) == Ok(None) {
        AppendFreshKeepsUnique(g.nodes, n, NodeId);
      }
    case DrawTextOp(t) =>
      if GetNodeTextById(g, TextId(t)) == Ok(None) {
        AppendFreshKeepsUnique(g.texts, t, TextId);
      }
    case DrawEdgeOp(e) =>
      if GetEdgeById(g, EdgeId(e)) == Ok(None) {
        AppendFreshKeepsUnique(g.edges, e, EdgeId);
      }
    case RemoveCellOp(id) =>
      KeepKeepsUnique(g.nodes, NodeId, id);
      KeepKeepsUnique(g.texts, TextId, id);
      KeepKeepsUnique(g.edges, EdgeId, id);
    case _ =>
  }

  /** Drawing the same node twice registers it once. */
  lemma DrawNodeTwiceRegistersOnce(g: Graph, n: Node)
    requires NodeId(n).Some? && DrawNode(g, n).Ok?
    ensures DrawNode(DrawNode(g, n).value, n).Ok?
    ensures DrawNode(DrawNode(g, n).value, n).value.nodes == DrawNode(g, n).value.nodes
  {
    FindFirstSnoc(g.nodes, n, NodeId, NodeId(n));
  }

  /** Drawing the same text node twice registers it once. */
  lemma DrawTextTwiceRegistersOnce(g: Graph, t: NodeText)
    requires TextId(t).Some? && DrawText(g, t).Ok?
    ensures DrawText(DrawText(g, t).value, t).Ok?
    ensures DrawText(DrawText(g, t).value, t).value.texts == DrawText(g, t).value.texts
  {
    FindFirstSnoc(g.texts, t, TextId, TextId(t));
  }

  /** Drawing the same edge twice registers it once. */
  lemma DrawEdgeTwiceRegistersOnce(g: Graph, e: Edge)
    requires EdgeId(e).Some? && DrawEdge(g, e).Ok?
    ensures DrawEdge(DrawEdge(g, e).value, e).Ok?
    ensures DrawEdge(DrawEdge(g, e).value, e).value.edges == DrawEdge(g, e).value.edges
  {
    FindFirstSnoc(g.edges, e, EdgeId, EdgeId(e));
  }

  /** A node drawn without an id is registered, and from then on every
      lookup for an id not registered before throws, since the scan reaches
      the null id. */
  lemma NodeWithoutIdBreaksLookups(g: Graph, n: Node, id: Option<string>)
    requires NoNullIds(g.nodes, NodeId) && NodeId(n).None?
    requires !Contains(g.nodes, NodeId, id)
    ensures DrawNode(g, n).Ok?
    ensures DrawNode(g, n).value.nodes == g.nodes + [n]
    ensures GetNodeById(DrawNode(g, n).value, id) == Err(NullPointer)
  {
    FindFirstSnoc(g.nodes, n, NodeId, id);
  }

  /** Removing an id no list holds changes no list and reports nothing
      removed; the browser is still asked to remove it. */
  lemma RemoveAbsentCellChangesNothing(g: Graph, id: Option<string>)
    requires Healthy(g)
    requires !Contains(g.nodes, NodeId, id) && !Contains(g.texts, TextId, id) && !Contains(g.edges, EdgeId, id)
    ensures RemoveX6Cell(g, id) == Ok((g, false))
    ensures RemoveCell(g, id) == Ok(g.(log := g.log + [RemoveCellCall(id)]))
  {
  }

  /** After removing a cell whose id at most one kind of cell uses, looking
      the id up finds nothing in any list. */
  lemma RemovedCellIsGone(g: Graph, id: Option<string>)
    requires Healthy(g)
    requires Contains(g.nodes, NodeId, id) ==> !Contains(g.texts, TextId, id) && !Contains(g.edges, EdgeId, id)
    requires Contains(g.texts, TextId, id) ==> !Contains(g.edges, EdgeId, id)
    ensures RemoveCell(g, id).Ok?
    ensures GetNodeById(RemoveCell(g, id).value, id) == Ok(None)
    ensures GetNodeTextById(RemoveCell(g, id).value, id) == Ok(None)
    ensures GetEdgeById(RemoveCell(g, id).value, id) == Ok(None)
  {
  }

  /** `removeCell` changes exactly one list: the first of nodes, text nodes
      and edges that holds the id (the edges when none does), and removes from
      it every cell with the id. */
  lemma RemoveCellTouchesFirstHolder(g: Graph, id: Option<string>)
    requires NoNullIds(g.nodes, NodeId) && NoNullIds(g.texts, TextId) && NoNullIds(g.edges, EdgeId)
    ensures RemoveX6Cell(g, id).Ok?
    ensures var g' := RemoveX6Cell(g, id).value.0;
      if Contains(g.nodes, NodeId, id) then g' == g.(nodes := Keep(g.nodes, NodeId, id))
      else if Contains(g.texts, TextId, id) then g' == g.(texts := Keep(g.texts, TextId, id))
      else g' == g.(edges := Keep(g.edges, EdgeId, id))
  {
  }

  /** Ids may be shared across kinds; `removeCell` then removes only the
      node and leaves the edge with the same id registered. */
  lemma SharedIdRemovesOnlyTheNode(g: Graph, id: Option<string>)
    requires Healthy(g)
    requires Contains(g.nodes, NodeId, id) && Contains(g.edges, EdgeId, id)
    ensures RemoveCell(g, id).Ok?
    ensures RemoveCell(g, id).value.edges == g.edges && RemoveCell(g, id).value.texts == g.texts
    ensures !Contains(RemoveCell(g, id).value.nodes, NodeId, id)
  {
  }

  /** `drawNodeBackground` never replaces the registered background. */
  lemma DrawBackgroundKeepsRegisteredOne(g: Graph, b: NodeBackground)
    requires g.background.Some?
    ensures DrawNodeBackground(g, b).Ok? && DrawNodeBackground(g, b).value.background == g.background
  {
  }
}
