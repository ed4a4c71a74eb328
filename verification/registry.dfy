/**
 * The component (`AntvX6`) as a registry of cells. It keeps a background
 * node and three lists (nodes, text nodes, edges), and talks to the browser
 * by calling JavaScript functions; those calls are recorded, in order, in a
 * log of commands carrying the JSON they send.
 *
 * An operation that throws returns `Err`, and the whole state it would have
 * left behind (log entries already sent included) is dropped with it.
 */
module Registry {
  import opened Wrappers
  import opened Text
  import opened Constants
  import opened Cells
  import opened Json
  import opened JsonGenerator
  import opened Lookup

  /** One call into the browser component. */
  datatype Command =
    | DrawBackgroundCall(data: Json)
    | DrawNodeCall(data: Json)
    | DrawTextCall(data: Json)
    | DrawEdgeCall(data: Json)
    | RemoveBackgroundCall
    | RemoveCellCall(id: Option<string>)
    | CleanGraphCall

  /** The component's state: its cells and every browser call made so far. */
  datatype Graph = Graph(
    background: Option<NodeBackground>,
    nodes: seq<Node>,
    texts: seq<NodeText>,
    edges: seq<Edge>,
    log: seq<Command>)

  function NodeId(n: Node): Option<string> { n.base.cell.id }
  function TextId(t: NodeText): Option<string> { t.base.cell.id }
  function EdgeId(e: Edge): Option<string> { e.cell.id }

  /** `new AntvX6()`: a default background and no cells. */
  function NewRegistry(): (g: Graph)
    ensures g.background == Some(NewNodeBackground())
    ensures g.nodes == [] && g.texts == [] && g.edges == [] && g.log == []
  {
    Graph(Some(NewNodeBackground()), [], [], [], [])
  }

  // ---------------------------------------------------------------------
  // Lookup
  // ---------------------------------------------------------------------

  /** `getNodeById`. */
  function GetNodeById(g: Graph, id: Option<string>): (r: Result<Option<Node>>)
    ensures r.Ok? && r.value.Some? ==> r.value.value in g.nodes && NodeId(r.value.value) == id && id.Some?
    ensures NoNullIds(g.nodes, NodeId) ==> r.Ok? && (r.value.Some? <==> Contains(g.nodes, NodeId, id))
  {
    FindFirstWithoutNullIdsWhenClean(g.nodes, NodeId, id);
    FindFirst(g.nodes, NodeId, id)
  }

  /** `getNodeTextById`. */
  function GetNodeTextById(g: Graph, id: Option<string>): (r: Result<Option<NodeText>>)
    ensures r.Ok? && r.value.Some? ==> r.value.value in g.texts && TextId(r.value.value) == id && id.Some?
    ensures NoNullIds(g.texts, TextId) ==> r.Ok? && (r.value.Some? <==> Contains(g.texts, TextId, id))
  {
    FindFirstWithoutNullIdsWhenClean(g.texts, TextId, id);
    FindFirst(g.texts, TextId, id)
  }

  /** `getEdgeById`. */
  function GetEdgeById(g: Graph, id: Option<string>): (r: Result<Option<Edge>>)
    ensures r.Ok? && r.value.Some? ==> r.value.value in g.edges && EdgeId(r.value.value) == id && id.Some?
    ensures NoNullIds(g.edges, EdgeId) ==> r.Ok? && (r.value.Some? <==> Contains(g.edges, EdgeId, id))
  {
    FindFirstWithoutNullIdsWhenClean(g.edges, EdgeId, id);
    FindFirst(g.edges, EdgeId, id)
  }

  lemma FindFirstWithoutNullIdsWhenClean<T>(xs: seq<T>, idOf: T -> Option<string>, id: Option<string>)
    ensures NoNullIds(xs, idOf) ==> FindFirst(xs, idOf, id).Ok?
    ensures NoNullIds(xs, idOf) ==> (FindFirst(xs, idOf, id).value.Some? <==> Contains(xs, idOf, id))
  {
    if NoNullIds(xs, idOf) {
      FindFirstWithoutNullIds(xs, idOf, id);
    }
  }

  // ---------------------------------------------------------------------
  // Drawing
  // ---------------------------------------------------------------------

  /** `drawNode`: sends the node, then registers it unless a node with its
      id is already registered. */
  function DrawNode(g: Graph, n: Node): (r: Result<Graph>)
    ensures r.Err? <==> GetNodeById(g, NodeId(n)).Err?
    ensures r.Ok? ==> r.value.log == g.log + [DrawNodeCall(GenerateJsonNode(n))]
    ensures r.Ok? ==> r.value.nodes == (if GetNodeById(g, NodeId(n)).value.None? then g.nodes + [n] else g.nodes)
    ensures r.Ok? ==> r.value.(nodes := g.nodes, log := g.log) == g
  {
    var g1 := g.(log := g.log + [DrawNodeCall(GenerateJsonNode(n))]);
    var found :- GetNodeById(g, NodeId(n));
    if found.None? then Ok(g1.(nodes := g.nodes + [n])) else Ok(g1)
  }

  /** `drawNodeCenter`: sends the node without registering it. */
  function DrawNodeCenter(g: Graph, n: Node): (r: Graph)
    ensures r.log == g.log + [DrawNodeCall(GenerateJsonNode(n))]
    ensures r.(log := g.log) == g
  {
    g.(log := g.log + [DrawNodeCall(GenerateJsonNode(n))])
  }

  /** `drawText`: sends the text node, then registers it unless a text node
      with its id is already registered. */
  function DrawText(g: Graph, t: NodeText): (r: Result<Graph>)
    ensures r.Err? <==> GetNodeTextById(g, TextId(t)).Err?
    ensures r.Ok? ==> r.value.log == g.log + [DrawTextCall(GenerateJsonNodeText(t))]
    ensures r.Ok? ==> r.value.texts == (if GetNodeTextById(g, TextId(t)).value.None? then g.texts + [t] else g.texts)
    ensures r.Ok? ==> r.value.(texts := g.texts, log := g.log) == g
  {
    var g1 := g.(log := g.log + [DrawTextCall(GenerateJsonNodeText(t))]);
    var found :- GetNodeTextById(g, TextId(t));
    if found.None? then Ok(g1.(texts := g.texts + [t])) else Ok(g1)
  }

  /** `drawEdge`: serializes the edge (which throws on a null label), sends
      it, then registers it unless an edge with its id is already registered. */
  function DrawEdge(g: Graph, e: Edge): (r: Result<Graph>)
    ensures r.Err? <==> GenerateJsonEdge(e).Err? || GetEdgeById(g, EdgeId(e)).Err?
    ensures r.Ok? ==> r.value.log == g.log + [DrawEdgeCall(GenerateJsonEdge(e).value)]
    ensures r.Ok? ==> r.value.edges == (if GetEdgeById(g, EdgeId(e)).value.None? then g.edges + [e] else g.edges)
    ensures r.Ok? ==> r.value.(edges := g.edges, log := g.log) == g
  {
    var data :- GenerateJsonEdge(e);
    var g1 := g.(log := g.log + [DrawEdgeCall(data)]);
    var found :- GetEdgeById(g, EdgeId(e));
    if found.None? then Ok(g1.(edges := g.edges + [e])) else Ok(g1)
  }

  /** `drawNodeBackground`: sends the background, then tests
      `nodeBackground == null && nodeBackground.getId().isBlank()`. That test
      throws when there is no background and is false otherwise, so the
      background drawn is never registered. */
  function DrawNodeBackground(g: Graph, b: NodeBackground): (r: Result<Graph>)
    ensures r.Err? <==> g.background.None?
    ensures r.Ok? ==> r.value == g.(log := g.log + [DrawBackgroundCall(GenerateJsonBackground(b))])
  {
    var g1 := g.(log := g.log + [DrawBackgroundCall(GenerateJsonBackground(b))]);
    if g.background.None? then Err(NullPointer) else Ok(g1)
  }

  // ---------------------------------------------------------------------
  // Removal and cleaning
  // ---------------------------------------------------------------------

  /** `removeX6Node`. */
  function RemoveX6Node(g: Graph, id: Option<string>): (r: Result<(Graph, bool)>)
    ensures r.Err? <==> !NoNullIds(g.nodes, NodeId)
    ensures r.Ok? ==> (r.value.1 <==> Contains(g.nodes, NodeId, id))
    ensures r.Ok? ==> !Contains(r.value.0.nodes, NodeId, id) && NoNullIds(r.value.0.nodes, NodeId)
    ensures r.Ok? ==> forall n :: n in g.nodes && NodeId(n) != id ==> n in r.value.0.nodes
    ensures r.Ok? ==> r.value.0.(nodes := g.nodes) == g
    ensures r.Ok? ==> r.value.0.nodes == Keep(g.nodes, NodeId, id)
  {
    var (kept, removed) :- RemoveWhere(g.nodes, NodeId, id);
    KeepLeavesNoMatch(g.nodes, NodeId, id);
    Ok((g.(nodes := kept), removed))
  }

  /** `removeX6NodeText`. */
  function RemoveX6NodeText(g: Graph, id: Option<string>): (r: Result<(Graph, bool)>)
    ensures r.Err? <==> !NoNullIds(g.texts, TextId)
    ensures r.Ok? ==> (r.value.1 <==> Contains(g.texts, TextId, id))
    ensures r.Ok? ==> !Contains(r.value.0.texts, TextId, id) && NoNullIds(r.value.0.texts, TextId)
    ensures r.Ok? ==> forall t :: t in g.texts && TextId(t) != id ==> t in r.value.0.texts
    ensures r.Ok? ==> r.value.0.(texts := g.texts) == g
    ensures r.Ok? ==> r.value.0.texts == Keep(g.texts, TextId, id)
  {
    var (kept, removed) :- RemoveWhere(g.texts, TextId, id);
    KeepLeavesNoMatch(g.texts, TextId, id);
    Ok((g.(texts := kept), removed))
  }

  /** `removeX6Edge`. */
  function RemoveX6Edge(g: Graph, id: Option<string>): (r: Result<(Graph, bool)>)
    ensures r.Err? <==> !NoNullIds(g.edges, EdgeId)
    ensures r.Ok? ==> (r.value.1 <==> Contains(g.edges, EdgeId, id))
    ensures r.Ok? ==> !Contains(r.value.0.edges, EdgeId, id) && NoNullIds(r.value.0.edges, EdgeId)
    ensures r.Ok? ==> forall e :: e in g.edges && EdgeId(e) != id ==> e in r.value.0.edges
    ensures r.Ok? ==> r.value.0.(edges := g.edges) == g
    ensures r.Ok? ==> r.value.0.edges == Keep(g.edges, EdgeId, id)
  {
    var (kept, removed) :- RemoveWhere(g.edges, EdgeId, id);
    KeepLeavesNoMatch(g.edges, EdgeId, id);
    Ok((g.(edges := kept), removed))
  }

  /** `removeX6Cell`: tries the nodes, then the text nodes, then the edges,
      and stops at the first list that had the id. */
  function RemoveX6Cell(g: Graph, id: Option<string>): (r: Result<(Graph, bool)>)
    ensures RemoveX6Node(g, id).Err? ==> r.Err?
    ensures RemoveX6Node(g, id).Ok? && RemoveX6Node(g, id).value.1 ==> r == RemoveX6Node(g, id)
    ensures r.Ok? ==> (r.value.1 <==> Contains(g.nodes, NodeId, id) || Contains(g.texts, TextId, id)
                                      || Contains(g.edges, EdgeId, id))
    ensures r.Ok? ==> r.value.0.background == g.background && r.value.0.log == g.log
  {
    var byNode :- RemoveX6Node(g, id);
    if byNode.1 then Ok(byNode)
    else
      var byText :- RemoveX6NodeText(byNode.0, id);
      if byText.1 then Ok(byText)
      else RemoveX6Edge(byText.0, id)
  }

  /** `removeCell`: removes the cell from the lists, then asks the browser
      to remove it. */
  function RemoveCell(g: Graph, id: Option<string>): (r: Result<Graph>)
    ensures r.Err? <==> RemoveX6Cell(g, id).Err?
    ensures r.Ok? ==> r.value == RemoveX6Cell(g, id).value.0.(log := g.log + [RemoveCellCall(id)])
  {
    var removed :- RemoveX6Cell(g, id);
    Ok(removed.0.(log := removed.0.log + [RemoveCellCall(id)]))
  }

  /** `cleanGraph`: forgets every node, text node and edge (the background
      stays) and asks the browser to clear the canvas. */
  function CleanGraph(g: Graph): (r: Graph)
    ensures r.nodes == [] && r.texts == [] && r.edges == []
    ensures r.background == g.background
    ensures r.log == g.log + [CleanGraphCall]
  {
    Graph(g.background, [], [], [], g.log + [CleanGraphCall])
  }

  /** What `removeNodeBackground` leaves in the background slot: a blank
      image node at the origin. */
  predicate IsClearedBackground(b: NodeBackground) {
    && b.base.cell.id == Some("")
    && b.base.cell.geometry == Some(Geometry(0.0, 0.0, 0.0, 0.0))
    && b.base.imgUrl == Some("")
    && b.base.shape == Some(ShapeImage)
  }

  /** `removeNodeBackground`: asks the browser to remove the background,
      then blanks the background's id, geometry, image and shape in place
      (throwing when there is no background). */
  function RemoveNodeBackground(g: Graph): (r: Result<Graph>)
    ensures r.Err? <==> g.background.None?
    ensures r.Ok? ==> r.value.background.Some? && IsClearedBackground(r.value.background.value)
    ensures r.Ok? ==> r.value.log == g.log + [RemoveBackgroundCall]
    ensures r.Ok? ==> r.value.(background := g.background, log := g.log) == g
    ensures r.Ok? ==> var b := g.background.value.base; var b' := r.value.background.value.base;
      b'.(cell := b.cell, imgUrl := b.imgUrl, shape := b.shape) == b
      && b'.cell.(id := b.cell.id, geometry := b.cell.geometry) == b.cell
  {
    var g1 := g.(log := g.log + [RemoveBackgroundCall]);
    match g.background
    case None => Err(NullPointer)
    case Some(bg) =>
      var d := bg.base;
      var cell := d.cell.(id := Some(""), geometry := Some(Geometry(0.0, 0.0, 0.0, 0.0)));
      Ok(g1.(background := Some(NodeBackground(d.(cell := cell, imgUrl := Some(""), shape := Some(ShapeImage))))))
  }

  // ---------------------------------------------------------------------
  // Refreshing the canvas
  // ---------------------------------------------------------------------

  /** Where a text node is placed below its parent: the text-layout utility
      (`X6NodeTextUtilities`), given the parent's geometry and the text. */
  type Layout = (Option<Geometry>, Option<string>) -> Geometry

  /** A text node moved to the place `layout` computes below `parent`. */
  function Relaid(t: NodeText, parent: Node, layout: Layout): (r: NodeText)
    ensures r.base.cell.geometry == Some(layout(parent.base.cell.geometry, t.base.labelText))
    ensures r.base.(cell := t.base.cell) == t.base
    ensures r.base.cell.(geometry := t.base.cell.geometry) == t.base.cell
  {
    NodeText(t.base.(cell := t.base.cell.(geometry := Some(layout(parent.base.cell.geometry, t.base.labelText)))))
  }

  /** The background call of a refresh: made only for a background whose id
      is neither null nor blank. */
  function BackgroundCalls(b: Option<NodeBackground>): (r: seq<Command>)
    ensures |r| <= 1
    ensures |r| == 1 <==> b.Some? && !NullOrBlank(b.value.base.cell.id)
    ensures |r| == 1 ==> r[0] == DrawBackgroundCall(GenerateJsonBackground(b.value))
  {
    if b.Some? && !NullOrBlank(b.value.base.cell.id) then [DrawBackgroundCall(GenerateJsonBackground(b.value))] else []
  }

  /** One `drawNode` call per node, in order. */
  function NodeCalls(ns: seq<Node>): (r: seq<Command>)
    ensures |r| == |ns| && forall i :: 0 <= i < |ns| ==> r[i] == DrawNodeCall(GenerateJsonNode(ns[i]))
  {
    seq(|ns|, i requires 0 <= i < |ns| => DrawNodeCall(GenerateJsonNode(ns[i])))
  }

  /** One `drawText` call per text node, in order. */
  function TextCalls(ts: seq<NodeText>): (r: seq<Command>)
    ensures |r| == |ts| && forall i :: 0 <= i < |ts| ==> r[i] == DrawTextCall(GenerateJsonNodeText(ts[i]))
  {
    seq(|ts|, i requires 0 <= i < |ts| => DrawTextCall(GenerateJsonNodeText(ts[i])))
  }

  lemma NodeCallsSnoc(ns: seq<Node>, n: Node)
    ensures NodeCalls(ns + [n]) == NodeCalls(ns) + [DrawNodeCall(GenerateJsonNode(n))]
  {
  }

  lemma TextCallsSnoc(ts: seq<NodeText>, t: NodeText)
    ensures TextCalls(ts + [t]) == TextCalls(ts) + [DrawTextCall(GenerateJsonNodeText(t))]
  {
  }

  /** Whether every edge can be serialized (none holds a null label). */
  predicate AllEdgesSerialize(es: seq<Edge>) {
    forall i :: 0 <= i < |es| ==> GenerateJsonEdge(es[i]).Ok?
  }

  /** One `drawEdge` call per edge, in order. */
  function EdgeCalls(es: seq<Edge>): (r: seq<Command>)
    requires AllEdgesSerialize(es)
    ensures |r| == |es| && forall i :: 0 <= i < |es| ==> r[i] == DrawEdgeCall(GenerateJsonEdge(es[i]).value)
  {
    seq(|es|, i requires 0 <= i < |es| => DrawEdgeCall(GenerateJsonEdge(es[i]).value))
  }

  lemma EdgeCallsSnoc(es: seq<Edge>, e: Edge)
    requires AllEdgesSerialize(es) && GenerateJsonEdge(e).Ok?
    ensures AllEdgesSerialize(es + [e])
    ensures EdgeCalls(es + [e]) == EdgeCalls(es) + [DrawEdgeCall(GenerateJsonEdge(e).value)]
  {
    assert forall i :: 0 <= i < |es| ==> (es + [e])[i] == es[i];
  }

  /** A state `refreshCanvas` goes through without throwing: no null ids,
      every text node's parent registered, every edge serializable. */
  predicate Refreshable(g: Graph) {
    && NoNullIds(g.nodes, NodeId) && NoNullIds(g.texts, TextId) && NoNullIds(g.edges, EdgeId)
    && (forall i :: 0 <= i < |g.texts| ==> Contains(g.nodes, NodeId, g.texts[i].base.parentId))
    && AllEdgesSerialize(g.edges)
  }

  /** Whether text node `t` was relaid below the parent its parent id names. */
  predicate RelaidBelowParent(nodes: seq<Node>, t: NodeText, t': NodeText, layout: Layout) {
    var parent := FindFirst(nodes, NodeId, t.base.parentId);
    parent.Ok? && parent.value.Some? && t' == Relaid(t, parent.value.value, layout)
  }

  /** The node pass of a refresh: `drawNodeCenter` for every node. */
  method RedrawNodes(g: Graph) returns (r: Graph)
    ensures r == g.(log := g.log + NodeCalls(g.nodes))
  {
    r := g;
    var i := 0;
    while i < |g.nodes|
      invariant 0 <= i <= |g.nodes|
      invariant r == g.(log := g.log + NodeCalls(g.nodes[..i]))
    {
      r := DrawNodeCenter(r, g.nodes[i]);
      assert g.nodes[..i + 1] == g.nodes[..i] + [g.nodes[i]];
      NodeCallsSnoc(g.nodes[..i], g.nodes[i]);
      i := i + 1;
    }
    assert g.nodes[..i] == g.nodes;
  }

  /** Drawing a text node in the place of a registered one with the same id
      only logs it. */
  lemma RedrawRegisteredText(g: Graph, i: nat, t: NodeText)
    requires i < |g.texts| && TextId(t) == TextId(g.texts[i])
    ensures var g' := g.(texts := g.texts[i := t]);
      DrawText(g', t).Ok? ==> DrawText(g', t).value == g'.(log := g.log + [DrawTextCall(GenerateJsonNodeText(t))])
    ensures NoNullIds(g.texts, TextId) ==> DrawText(g.(texts := g.texts[i := t]), t).Ok?
  {
    var texts := g.texts[i := t];
    FindFirstOfMember(texts, TextId, i);
    if NoNullIds(g.texts, TextId) {
      assert NoNullIds(texts, TextId);
    }
  }

  /** One step of the text pass: text node `i` is placed below its parent
      and drawn. A parent that is not registered makes it throw. */
  function RedrawTextAt(g: Graph, i: nat, layout: Layout): (r: Result<Graph>)
    requires i < |g.texts|
    ensures r.Ok? ==> r.value.(texts := g.texts, log := g.log) == g
    ensures r.Ok? ==> |r.value.texts| == |g.texts| && r.value.texts == g.texts[i := r.value.texts[i]]
    ensures r.Ok? ==> RelaidBelowParent(g.nodes, g.texts[i], r.value.texts[i], layout)
    ensures r.Ok? ==> TextId(r.value.texts[i]) == TextId(g.texts[i])
    ensures r.Ok? ==> r.value.log == g.log + [DrawTextCall(GenerateJsonNodeText(r.value.texts[i]))]
    ensures NoNullIds(g.nodes, NodeId) && NoNullIds(g.texts, TextId) && Contains(g.nodes, NodeId, g.texts[i].base.parentId)
            ==> r.Ok?
  {
    var t := g.texts[i];
    var parent :- GetNodeById(g, t.base.parentId);
    if parent.None? then Err(NullPointer)
    else
      var t' := Relaid(t, parent.value, layout);
      RedrawRegisteredText(g, i, t');
      DrawText(g.(texts := g.texts[i := t']), t')
  }

  /** Where the text pass stands after `i` steps: the first `i` text nodes
      of `g` are relaid and logged, the rest untouched, ids unchanged, and
      nothing else differs from `g`. */
  predicate TextPassAt(g: Graph, cur: Graph, i: nat, layout: Layout) {
    && i <= |g.texts|
    && cur.(texts := g.texts, log := g.log) == g
    && |cur.texts| == |g.texts|
    && (forall j :: 0 <= j < i ==> RelaidBelowParent(g.nodes, g.texts[j], cur.texts[j], layout))
    && (forall j :: i <= j < |g.texts| ==> cur.texts[j] == g.texts[j])
    && (forall j :: 0 <= j < |g.texts| ==> TextId(cur.texts[j]) == TextId(g.texts[j]))
    && cur.log == g.log + TextCalls(cur.texts[..i])
  }

  /** One step of the text pass cannot throw on a refreshable graph. */
  lemma RedrawTextStepSucceeds(g: Graph, cur: Graph, i: nat, layout: Layout)
    requires i < |g.texts| && TextPassAt(g, cur, i, layout)
    ensures Refreshable(g) ==> RedrawTextAt(cur, i, layout).Ok?
  {
    if Refreshable(g) {
      assert cur.nodes == g.nodes;
      assert cur.texts[i] == g.texts[i];
      assert NoNullIds(cur.texts, TextId);
    }
  }

  /** One step of the text pass keeps `TextPassAt`. */
  lemma RedrawTextStep(g: Graph, cur: Graph, i: nat, layout: Layout)
    requires i < |g.texts| && TextPassAt(g, cur, i, layout)
    ensures RedrawTextAt(cur, i, layout).Ok? ==> TextPassAt(g, RedrawTextAt(cur, i, layout).value, i + 1, layout)
  {
    if RedrawTextAt(cur, i, layout).Ok? {
      RedrawTextStepFrame(g, cur, i, layout);
      RedrawTextStepRelaid(g, cur, i, layout);
      RedrawTextStepLog(g, cur, i, layout);
    }
  }

  /** A text step changes only the text at `i` and the log, keeping ids. */
  lemma RedrawTextStepFrame(g: Graph, cur: Graph, i: nat, layout: Layout)
    requires i < |g.texts| && TextPassAt(g, cur, i, layout)
    requires RedrawTextAt(cur, i, layout).Ok?
    ensures var next := RedrawTextAt(cur, i, layout).value;
      && next.(texts := g.texts, log := g.log) == g
      && |next.texts| == |g.texts|
      && (forall j :: i + 1 <= j < |g.texts| ==> next.texts[j] == g.texts[j])
      && (forall j :: 0 <= j < |g.texts| ==> TextId(next.texts[j]) == TextId(g.texts[j]))
  {
    var next := RedrawTextAt(cur, i, layout).value;
    assert next.texts == cur.texts[i := next.texts[i]];
  }

  /** After a text step the first `i + 1` text nodes are relaid. */
  lemma RedrawTextStepRelaid(g: Graph, cur: Graph, i: nat, layout: Layout)
    requires i < |g.texts| && TextPassAt(g, cur, i, layout)
    requires RedrawTextAt(cur, i, layout).Ok?
    ensures var next := RedrawTextAt(cur, i, layout).value;
      forall j :: 0 <= j < i + 1 ==> RelaidBelowParent(g.nodes, g.texts[j], next.texts[j], layout)
  {
    var next := RedrawTextAt(cur, i, layout).value;
    assert cur.nodes == g.nodes;
    assert cur.texts[i] == g.texts[i];
    assert next.texts == cur.texts[i := next.texts[i]];
    forall j | 0 <= j < i + 1
      ensures RelaidBelowParent(g.nodes, g.texts[j], next.texts[j], layout)
    {
      if j < i {
        assert next.texts[j] == cur.texts[j];
      }
    }
  }

  /** After a text step the log holds one call per relaid text node. */
  lemma RedrawTextStepLog(g: Graph, cur: Graph, i: nat, layout: Layout)
    requires i < |g.texts| && TextPassAt(g, cur, i, layout)
    requires RedrawTextAt(cur, i, layout).Ok?
    ensures var next := RedrawTextAt(cur, i, layout).value;
      next.log == g.log + TextCalls(next.texts[..i + 1])
  {
    var next := RedrawTextAt(cur, i, layout).value;
    var t' := next.texts[i];
    UpdatedPrefix(cur.texts, i, t');
    TextCallsSnoc(cur.texts[..i], t');
    ConcatAssociates(g.log, TextCalls(cur.texts[..i]), [DrawTextCall(GenerateJsonNodeText(t'))]);
  }

  /** The prefix up to and including an updated position. */
  lemma UpdatedPrefix<T>(s: seq<T>, i: nat, x: T)
    requires i < |s|
    ensures s[i := x][..i + 1] == s[..i] + [x]
  {
  }

  /** The text pass of a refresh: each text node is placed below its parent
      and drawn. Drawing never registers it again, since a text node with its
      id is already in the list. */
  method RedrawTexts(g: Graph, layout: Layout) returns (r: Result<Graph>)
    ensures r.Ok? ==> r.value.(texts := g.texts, log := g.log) == g
    ensures r.Ok? ==> |r.value.texts| == |g.texts|
    ensures r.Ok? ==> forall i :: 0 <= i < |g.texts| ==> RelaidBelowParent(g.nodes, g.texts[i], r.value.texts[i], layout)
    ensures r.Ok? ==> r.value.log == g.log + TextCalls(r.value.texts)
    ensures Refreshable(g) ==> r.Ok?
  {
    var cur := g;
    var i := 0;
    assert g.texts[..0] == [];
    while i < |g.texts|
      invariant TextPassAt(g, cur, i, layout)
    {
      RedrawTextStepSucceeds(g, cur, i, layout);
      RedrawTextStep(g, cur, i, layout);
      cur :- RedrawTextAt(cur, i, layout);
      i := i + 1;
    }
    assert cur.texts[..i] == cur.texts;
    r := Ok(cur);
  }

  /** Redrawing a registered edge only logs it. */
  lemma RedrawRegisteredEdge(g: Graph, i: nat)
    requires i < |g.edges|
    ensures DrawEdge(g, g.edges[i]).Ok? ==>
      DrawEdge(g, g.edges[i]).value == g.(log := g.log + [DrawEdgeCall(GenerateJsonEdge(g.edges[i]).value)])
    ensures GenerateJsonEdge(g.edges[i]).Ok? && NoNullIds(g.edges, EdgeId) ==> DrawEdge(g, g.edges[i]).Ok?
  {
    FindFirstOfMember(g.edges, EdgeId, i);
  }

  /** One step of the edge pass: drawing edge `i` of the original list
      extends the log by its call and changes nothing else. */
  lemma RedrawEdgeStep(g: Graph, cur: Graph, i: nat)
    requires i < |g.edges| && cur.(log := g.log) == g
    requires AllEdgesSerialize(g.edges[..i]) && cur.log == g.log + EdgeCalls(g.edges[..i])
    ensures AllEdgesSerialize(g.edges) && NoNullIds(g.edges, EdgeId) ==> DrawEdge(cur, g.edges[i]).Ok?
    ensures DrawEdge(cur, g.edges[i]).Ok? ==>
      var c := DrawEdge(cur, g.edges[i]).value;
      && c.(log := g.log) == g
      && AllEdgesSerialize(g.edges[..i + 1])
      && c.log == g.log + EdgeCalls(g.edges[..i + 1])
  {
    assert cur.edges == g.edges;
    RedrawRegisteredEdge(cur, i);
    if DrawEdge(cur, g.edges[i]).Ok? {
      assert g.edges[..i + 1] == g.edges[..i] + [g.edges[i]];
      EdgeCallsSnoc(g.edges[..i], g.edges[i]);
    }
  }

  /** The edge pass of a refresh: `drawEdge` for every edge, none of which
      is registered again. */
  method RedrawEdges(g: Graph) returns (r: Result<Graph>)
    ensures r.Ok? ==> AllEdgesSerialize(g.edges) && r.value == g.(log := g.log + EdgeCalls(g.edges))
    ensures AllEdgesSerialize(g.edges) && NoNullIds(g.edges, EdgeId) ==> r.Ok?
  {
    var cur := g;
    var i := 0;
    while i < |g.edges|
      invariant 0 <= i <= |g.edges|
      invariant cur.(log := g.log) == g
      invariant AllEdgesSerialize(g.edges[..i])
      invariant cur.log == g.log + EdgeCalls(g.edges[..i])
    {
      RedrawEdgeStep(g, cur, i);
      cur :- DrawEdge(cur, g.edges[i]);
      i := i + 1;
    }
    assert g.edges[..i] == g.edges;
    r := Ok(cur);
  }

  /** `refreshCanvas`: clears the browser canvas and draws everything again:
      the background if its id is not blank, every node, every text node
      after placing it below its parent, and every edge. Nothing is added to
      the lists, since every cell drawn is already registered; the text nodes
      keep their new geometry. A text node whose parent is not registered
      makes the refresh throw. */
  method RefreshCanvas(g: Graph, layout: Layout) returns (r: Result<Graph>)
    ensures r.Ok? ==> r.value.background == g.background && r.value.nodes == g.nodes && r.value.edges == g.edges
    ensures r.Ok? ==> |r.value.texts| == |g.texts|
    ensures r.Ok? ==> forall i :: 0 <= i < |g.texts| ==> RelaidBelowParent(g.nodes, g.texts[i], r.value.texts[i], layout)
    ensures r.Ok? ==> AllEdgesSerialize(g.edges)
    ensures r.Ok? ==> r.value.log == g.log + [CleanGraphCall] + BackgroundCalls(g.background) + NodeCalls(g.nodes)
                                     + TextCalls(r.value.texts) + EdgeCalls(g.edges)
    ensures Refreshable(g) ==> r.Ok?
  {
    var cur := g.(log := g.log + [CleanGraphCall]);
    if g.background.Some? && !NullOrBlank(g.background.value.base.cell.id) {
      var drawn := DrawNodeBackground(cur, g.background.value);
      cur := drawn.value;
    }
    assert cur == g.(log := g.log + [CleanGraphCall] + BackgroundCalls(g.background));
    cur := RedrawNodes(cur);
    var afterNodes := cur;
    var texts :- RedrawTexts(cur, layout);
    r := RedrawEdges(texts);
    if r.Ok? {
      assert r.value.log == afterNodes.log + TextCalls(texts.texts) + EdgeCalls(g.edges);
    }
  }
}
