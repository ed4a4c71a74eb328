# A verified model of the X6 graph component for Vaadin Flow

This project models, in Dafny, the core of the Vaadin Flow component that
wraps the AntV X6 diagramming library. The Java side keeps a mirror of the
graph drawn in the browser and sends cells to the browser as JSON. The model
covers five parts:

- **Style value objects** (`X6NodeStyles`, `X6EdgeStyles`,
  `X6EdgeLabelStyles`) and their constructor defaults. Module `Styles`.
- **Cell model** (`X6AbstractNode`, `X6Edge`, `X6EdgeBasic`): constructors,
  the label list of an edge and the vertex list of a basic edge. Modules
  `Cells` and `CellLaws`.
- **Style reconciliation** (`X6EdgeUtilities`): typed edge and label styles
  are exported into the edge's string-keyed style map and imported back.
  Import fills in defaults and quantises dash to 0 or 5 and border radius to
  0 or 12. Modules `EdgeUtilities` and `EdgeStyleLaws`.
- **Serializer** (`JsonGenerator`): each kind of cell becomes the JSON the
  browser reads, with every null written as `""` or `0`. Modules `Json`,
  `JsonGenerator`, `Wire` (the browser's typed reading of that JSON, after
  the TypeScript interfaces) and `SerializerLaws`.
- **Registry** (`AntvX6`): one background slot and three lists (nodes, text
  nodes, edges), with draw, remove, clean, refresh and lookup. Every call
  into the browser is an entry appended to a command log. Modules `Lookup`,
  `Registry` and `RegistryLaws`.

It also models the pure browser helpers of `x-6.ts` that turn the JSON into
AntV X6 configuration: edge labels, connector, vertices, node port and node
label. It models the z-index rules of the context menu as well. These are in
module `Frontend`. Module `PipelineLaws` follows a cell from the Java side
through the serializer to what the browser draws.

## Conventions

- A Java reference that may be null is an `Option` (`None` is null). Every
  exception the code can throw is a `Result` error: a null dereference, an
  index out of range, or a number that does not parse.
- An operation that throws returns `Err`. The model does not keep what the
  Java object looked like when the exception left it (see "Left out").
- Objects are immutable values. A mutating Java method is a function from
  the old object to the new one.
- The registry is a `Graph` record. Its `log` lists, in order, every
  JavaScript function the component called, with the JSON it sent.
- JSON is a datatype. Objects are maps from keys to values, and numbers are
  `real`. Coordinates, sizes, widths and distances are `real`.
- Java's `double`-to-text conversion and `Double.parseDouble` are a pair of
  functions passed in as a parameter (`Text.DoubleText`), together with a
  predicate telling which reals a Java `double` can hold. The round-trip laws
  require `Text.Faithful`, and only of those values: parsing the rendering of
  a double gives it back, the rendering is `"0.0"` exactly for zero, and it is
  never `"0"` or blank; whatever parses is a double, and so are the defaults
  0.0, 1.0, 5.0 and 14.0. They also require the exported width, dash and font
  size to be doubles. `Text.SmallDoubleTextIsFaithful` shows the predicate can
  be met.
  `Integer.toString` is defined in full (`Text.IntToString`).
- Where the code places a text node under its parent, it uses the text-layout
  utility `X6NodeTextUtilities`. That utility is not part of this model, so
  `RefreshCanvas` takes the layout as a function parameter.
- The values of `X6Constants` are not part of this model. The style keys,
  the background colour and the image shape are stand-in strings, and the
  proofs rely only on the keys being distinct from each other and from
  `"black"`.

## Behaviour modelled as the code has it

- `drawNode`, `drawText` and `drawEdge` always send the cell. They register
  it only when a lookup by its id in the same list finds nothing, so a cell
  drawn twice is stored once and the first value is kept. Ids are unique per
  list only: a node, a text node and an edge may share an id.
- Lookups use `stream().filter(x -> x.getId().equals(id)).findFirst()`.
  That scan throws at a cell with a null id if it reaches one before a match,
  and a null id sought matches nothing. Removals use `removeIf`, which throws
  if any cell in the list has a null id, and then removes nothing.
- `drawNodeBackground` tests `nodeBackground == null && nodeBackground.getId().isBlank()`.
  So it never stores the background it draws, and it throws when there is no
  background.
- `removeX6Cell` stops at the first list (nodes, then text nodes, then edges)
  that held the id.
- `refreshCanvas` throws on a text node whose parent is not registered. It
  keeps the recomputed geometry in the text node.
- Import of the stroke colour falls back to the map's entry under the key
  `"black"`, which is usually absent (null), not to the colour `"black"`.
  Import turns a `rounded` value of `"0.0"` into 12. The label font family
  defaults to `"Helvetica"` on import and to `"Arial"` on export.
- `generateJsonEdge` throws on a null element of the label list: it reads
  the label's text before its null checks.
- `getLabelAt` guards the upper bound of the position but not the lower one.
  A negative position on a non-null list reaches `List.get`, so
  `Cells.GetLabelAt` returns `Err(IndexOutOfBounds)` for it instead of
  requiring a non-negative position.
- In the browser, `moveUpOneLevel` tests the z-index for truthiness, so a
  z-index of 0 never moves up. A missing z-index never moves either way.

## Model

| member | source | states |
|---|---|---|
| Styles.NewNodeStyles | x6-flow-root/x6-flow/src/main/java/com/neotropic/flow/component/antvx6/styles/X6NodeStyles.java:34-41 | fill colour is the graph background colour, stroke `"black"` of width 1.0, dash the text `"0"` (not a number), border radius 0, z-index 1 |
| Styles.NewEdgeStyles | x6-flow-root/x6-flow/src/main/java/com/neotropic/flow/component/antvx6/styles/X6EdgeStyles.java:32-38 | stroke `"black"` of width 1, dash 0 as a number, border radius 0, z-index 1 |
| Styles.NewEdgeLabelStyles | x6-for-vaadin-flow/src/main/java/com/neotropic/flow/component/antvx6/styles/X6EdgeLabelStyles.java:33-39 | fill colour is the graph background colour, font `"black"` size 14 family `"Arial"`, border radius 0 |
| Cells.NewAbstractNode | x6-flow-root/x6-flow/src/main/java/com/neotropic/flow/component/antvx6/objects/X6AbstractNode.java:42-48 | a node kind, movable, with fresh default node styles and node-label styles, never null |
| Cells.NewAbstractNodeAt | x6-flow-root/x6-flow/src/main/java/com/neotropic/flow/component/antvx6/objects/X6AbstractNode.java:50-60 | keeps the given id, geometry and shape; image, parent id and label start as `""`; movable, node kind, default style objects |
| Cells.NewEdge | x6-flow-root/x6-flow/src/main/java/com/neotropic/flow/component/antvx6/objects/X6Edge.java:40-46 | edge kind, empty vertex and label lists, default edge styles |
| Cells.NewEdgeBetween | x6-flow-root/x6-flow/src/main/java/com/neotropic/flow/component/antvx6/objects/X6Edge.java:49-57 | stores id and both endpoints, empty label list, edge kind, default styles |
| Cells.NewEdgeWithLabel | x6-flow-root/x6-flow/src/main/java/com/neotropic/flow/component/antvx6/objects/X6Edge.java:60-69 | exactly one label, the given text at distance 0.5 |
| Cells.NewEdgeWithLabels | x6-flow-root/x6-flow/src/main/java/com/neotropic/flow/component/antvx6/objects/X6Edge.java:72-80 | the caller's label list, null or not, is the edge's label list unchanged |
| Cells.AddLabel | x6-flow-root/x6-flow/src/main/java/com/neotropic/flow/component/antvx6/objects/X6Edge.java:82-85 | appends one label at the end, old labels untouched, no de-duplication; no effect on a null list; nothing else changes |
| Cells.GetLabelAt | x6-flow-root/x6-flow/src/main/java/com/neotropic/flow/component/antvx6/objects/X6Edge.java:87-91 | the label at a position inside the list; null past the end, on a null element or on a null list; throws for a negative position |
| Cells.ReplaceLabelAt | x6-flow-root/x6-flow/src/main/java/com/neotropic/flow/component/antvx6/objects/X6Edge.java:87-91 | writing through the label `getLabelAt` hands out changes that position only |
| Cells.NewEdgeBasic | x6-flow-root/x6-flow/src/main/java/com/neotropic/flow/component/antvx6/objects/X6EdgeBasic.java:33-38 | edge kind, empty vertex list, default edge styles |
| Cells.NewEdgeBasicBetween | x6-flow-root/x6-flow/src/main/java/com/neotropic/flow/component/antvx6/objects/X6EdgeBasic.java:40-47 | stores id and both endpoints, empty vertex list, edge kind, default styles |
| Cells.SetBasicIdSource | x6-flow-root/x6-flow/src/main/java/com/neotropic/flow/component/antvx6/objects/X6EdgeBasic.java:53-55 | sets the source and leaves every other field as it was |
| Cells.SetBasicIdTarget | x6-flow-root/x6-flow/src/main/java/com/neotropic/flow/component/antvx6/objects/X6EdgeBasic.java:61-63 | sets the target and leaves every other field as it was |
| Cells.SetBasicEdgeStyles | x6-flow-root/x6-flow/src/main/java/com/neotropic/flow/component/antvx6/objects/X6EdgeBasic.java:69-71 | sets the styles and leaves every other field as it was |
| Cells.SetBasicVertices | x6-flow-root/x6-flow/src/main/java/com/neotropic/flow/component/antvx6/objects/X6EdgeBasic.java:77-79 | sets the vertex list and leaves every other field as it was |
| Cells.AddVertex | x6-flow-root/x6-flow/src/main/java/com/neotropic/flow/component/antvx6/objects/X6EdgeBasic.java:81-83 | appends the vertex at the end, the old vertices as prefix; throws on a null list |
| Cells.AddVertices | x6-flow-root/x6-flow/src/main/java/com/neotropic/flow/component/antvx6/objects/X6EdgeBasic.java:81-83 | repeated `addVertex` leaves the old vertices followed by exactly the added ones, in order, duplicates kept |
| CellLaws.GetLabelAtAfterAddLabel | x6-flow-root/x6-flow/src/main/java/com/neotropic/flow/component/antvx6/objects/X6Edge.java:82-91 | after `addLabel`, the new label is read at the old length, earlier positions read as before, later ones as null |
| CellLaws.GetLabelAtAfterReplace | x6-flow-root/x6-flow/src/main/java/com/neotropic/flow/component/antvx6/objects/X6Edge.java:87-91 | a replaced label is seen at its position and nowhere else |
| CellLaws.LabelsComeBackInOrder | x6-flow-root/x6-flow/src/main/java/com/neotropic/flow/component/antvx6/objects/X6Edge.java:82-91 | two labels added in turn are read back at positions 0 and 1 in that order |
| CellLaws.LabelledEdgeScenario | x6-flow-root/x6-flow/src/main/java/com/neotropic/flow/component/antvx6/objects/X6Edge.java:60-69 | edge `E1` labelled `cost`: the label sits at distance 0.5, position 1 is null, position -1 throws |
| CellLaws.NullLabelListIsInert | x6-flow-root/x6-flow/src/main/java/com/neotropic/flow/component/antvx6/objects/X6Edge.java:82-91 | with a null label list `addLabel` does nothing and every position reads as null |
| EdgeUtilities.SetStylesToMap | x6-flow-root/x6-flow/src/main/java/com/neotropic/flow/component/antvx6/utilities/X6EdgeUtilities.java:59-91 | no effect on a null edge; a null style object or map becomes a default; a blank stroke colour becomes `"black"` in the typed styles and equals the map entry; dash, radius and width are rendered into the map; other keys survive |
| EdgeUtilities.SetLabelStylesToMap | x6-flow-root/x6-flow/src/main/java/com/neotropic/flow/component/antvx6/utilities/X6EdgeUtilities.java:99-128 | no effect without a label at the position; otherwise blank font colour becomes `"black"` and blank family `"Arial"`, both persisted in the label; the three font entries are written to the map; other labels untouched |
| EdgeUtilities.ImportedStrokeColor | x6-flow-root/x6-flow/src/main/java/com/neotropic/flow/component/antvx6/utilities/X6EdgeUtilities.java:138-141 | the present, non-blank map entry, else the value under the literal key `"black"`, null when there is none |
| EdgeUtilities.ImportedDash | x6-flow-root/x6-flow/src/main/java/com/neotropic/flow/component/antvx6/utilities/X6EdgeUtilities.java:143-149 | dash is 0 or 5, and 0 exactly for an absent or blank entry, `"0"` or `"0.0"` |
| EdgeUtilities.ImportedRadius | x6-flow-root/x6-flow/src/main/java/com/neotropic/flow/component/antvx6/utilities/X6EdgeUtilities.java:151-157 | radius is 0 or 12, and 0 exactly for an absent or blank entry or exactly `"0"` (so `"0.0"` gives 12) |
| EdgeUtilities.ImportedNumber | x6-flow-root/x6-flow/src/main/java/com/neotropic/flow/component/antvx6/utilities/X6EdgeUtilities.java:159-163 | the parsed entry when present, the default when absent or blank, a number-format error when unparseable |
| EdgeUtilities.SetEdgeStyles | x6-flow-root/x6-flow/src/main/java/com/neotropic/flow/component/antvx6/utilities/X6EdgeUtilities.java:137-164 | imports stroke colour, dash, radius and width as above, keeps the z-index, changes nothing else; throws on a null style object or unparseable width |
| EdgeUtilities.SetLabelStyles | x6-flow-root/x6-flow/src/main/java/com/neotropic/flow/component/antvx6/utilities/X6EdgeUtilities.java:173-193 | no effect without a label; otherwise font size (default 14), colour (default `"black"`) and family (default `"Helvetica"`) are imported into that label only |
| EdgeStyleLaws.ExportThenImportEdgeStyles | x6-flow-root/x6-flow/src/main/java/com/neotropic/flow/component/antvx6/utilities/X6EdgeUtilities.java:79-90 | for a width and dash that are doubles, export then import succeeds, gives back stroke colour, stroke width and z-index, and dash 0 or 5 and radius 0 or 12 according to whether they were zero |
| EdgeStyleLaws.QuantisedStylesRoundTripExactly | x6-flow-root/x6-flow/src/main/java/com/neotropic/flow/component/antvx6/utilities/X6EdgeUtilities.java:137-164 | styles with a double width, dash 0 or 5, radius 0 or 12 and a non-blank stroke colour survive the round trip exactly |
| EdgeStyleLaws.ImportIsStableUnderRoundTrip | x6-flow-root/x6-flow/src/main/java/com/neotropic/flow/component/antvx6/utilities/X6EdgeUtilities.java:137-164 | after one import, a further export and import changes nothing |
| EdgeStyleLaws.ExportThenImportLabelStyles | x6-flow-root/x6-flow/src/main/java/com/neotropic/flow/component/antvx6/utilities/X6EdgeUtilities.java:173-193 | for a font size that is a double, exporting a label's styles and importing the map back leaves the edge as export left it |
| JsonGenerator.GeometryJson | x6-for-vaadin-flow/src/main/java/com/neotropic/flow/component/antvx6/jsonGenerator/JsonGenerator.java:37-48 | the geometry object always has coordinates and dimensions (zeros for a null geometry; see `SerializerLaws.GeometryRoundTrip`) |
| JsonGenerator.ToolItems | x6-for-vaadin-flow/src/main/java/com/neotropic/flow/component/antvx6/jsonGenerator/JsonGenerator.java:50-55 | tools keep order and length, a null tool becomes `""` |
| JsonGenerator.NodeStylesJson | x6-for-vaadin-flow/src/main/java/com/neotropic/flow/component/antvx6/jsonGenerator/JsonGenerator.java:63-70 | all six node-style keys are present, null or not |
| JsonGenerator.NodeLabelStylesJson | x6-for-vaadin-flow/src/main/java/com/neotropic/flow/component/antvx6/jsonGenerator/JsonGenerator.java:72-78 | all five node-label-style keys are present, null or not |
| JsonGenerator.NodeDataFields | x6-for-vaadin-flow/src/main/java/com/neotropic/flow/component/antvx6/jsonGenerator/JsonGenerator.java:35-78 | the nine node-like keys |
| JsonGenerator.GenerateJsonNode | x6-for-vaadin-flow/src/main/java/com/neotropic/flow/component/antvx6/jsonGenerator/JsonGenerator.java:32-83 | node JSON has exactly the node-like keys plus `tools` and `port` |
| JsonGenerator.GenerateJsonNodeText | x6-for-vaadin-flow/src/main/java/com/neotropic/flow/component/antvx6/jsonGenerator/JsonGenerator.java:85-127 | text-node JSON has the node keys less `tools` and `port` |
| JsonGenerator.GenerateJsonBackground | x6-for-vaadin-flow/src/main/java/com/neotropic/flow/component/antvx6/jsonGenerator/JsonGenerator.java:129-171 | background JSON has the node keys less `tools` and `port` |
| JsonGenerator.VertexItems | x6-for-vaadin-flow/src/main/java/com/neotropic/flow/component/antvx6/jsonGenerator/JsonGenerator.java:180-189 | vertices keep order and length; a null vertex is `{x: 0, y: 0}` |
| JsonGenerator.EdgeLabelStylesJson | x6-for-vaadin-flow/src/main/java/com/neotropic/flow/component/antvx6/jsonGenerator/JsonGenerator.java:198-204 | all five label-style keys are present, null or not |
| JsonGenerator.EdgeLabelJson | x6-for-vaadin-flow/src/main/java/com/neotropic/flow/component/antvx6/jsonGenerator/JsonGenerator.java:194-204 | each label carries text, distance and a full style object |
| JsonGenerator.LabelItems | x6-for-vaadin-flow/src/main/java/com/neotropic/flow/component/antvx6/jsonGenerator/JsonGenerator.java:191-209 | labels keep order and length; throws exactly when some element is null |
| JsonGenerator.EdgeStylesJson | x6-for-vaadin-flow/src/main/java/com/neotropic/flow/component/antvx6/jsonGenerator/JsonGenerator.java:211-217 | all five edge-style keys are present, null or not |
| JsonGenerator.GenerateJsonEdge | x6-for-vaadin-flow/src/main/java/com/neotropic/flow/component/antvx6/jsonGenerator/JsonGenerator.java:173-220 | throws exactly when the label list holds a null element; otherwise the six edge keys |
| SerializerLaws.GeometryRoundTrip | x6-for-vaadin-flow/src/main/java/com/neotropic/flow/component/antvx6/jsonGenerator/JsonGenerator.java:37-48 | the browser reads back the four geometry values, zeros for a null geometry |
| SerializerLaws.NodeStylesRoundTrip | x6-for-vaadin-flow/src/main/java/com/neotropic/flow/component/antvx6/jsonGenerator/JsonGenerator.java:63-70 | the browser reads back each node style, `""` or 0 for null |
| SerializerLaws.NodeLabelStylesRoundTrip | x6-for-vaadin-flow/src/main/java/com/neotropic/flow/component/antvx6/jsonGenerator/JsonGenerator.java:72-78 | the browser reads back each node-label style, `""` or 0 for null |
| SerializerLaws.NodeDataReadBack | x6-for-vaadin-flow/src/main/java/com/neotropic/flow/component/antvx6/jsonGenerator/JsonGenerator.java:35-78 | any object agreeing on the node-like keys reads back as the node-like fields |
| SerializerLaws.NodeRoundTrip | x6-for-vaadin-flow/src/main/java/com/neotropic/flow/component/antvx6/jsonGenerator/JsonGenerator.java:32-83 | a node reads back with every field (nulls as `""`/0), its tools in order with nulls as `""`, and its port flag |
| SerializerLaws.NodeKindsShareFields | x6-for-vaadin-flow/src/main/java/com/neotropic/flow/component/antvx6/jsonGenerator/JsonGenerator.java:85-171 | text-node and background JSON equal node JSON less `tools` and `port` |
| SerializerLaws.EdgeLabelRoundTrip | x6-for-vaadin-flow/src/main/java/com/neotropic/flow/component/antvx6/jsonGenerator/JsonGenerator.java:194-204 | a non-null label reads back with its text, distance and styles |
| SerializerLaws.VertexRoundTrip | x6-for-vaadin-flow/src/main/java/com/neotropic/flow/component/antvx6/jsonGenerator/JsonGenerator.java:184-186 | a vertex reads back as its coordinates, a null one as the origin |
| SerializerLaws.EdgeStylesRoundTrip | x6-for-vaadin-flow/src/main/java/com/neotropic/flow/component/antvx6/jsonGenerator/JsonGenerator.java:211-217 | edge styles read back, stroke colour `""` and numbers 0 for null |
| SerializerLaws.EdgeRoundTrip | x6-for-vaadin-flow/src/main/java/com/neotropic/flow/component/antvx6/jsonGenerator/JsonGenerator.java:173-220 | an edge that serializes reads back with its ids, vertices and labels in order and its styles |
| SerializerLaws.BareNodeSerializesToEmptyAndZero | x6-for-vaadin-flow/src/main/java/com/neotropic/flow/component/antvx6/jsonGenerator/JsonGenerator.java:32-83 | a node with every field null still yields every key, as `""` or 0 |
| SerializerLaws.DefaultNodeScenario | x6-for-vaadin-flow/src/main/java/com/neotropic/flow/component/antvx6/jsonGenerator/JsonGenerator.java:32-83 | a default-styled node at (10, 20) of size 100 x 50 reaches the browser with stroke `"black"`, z-index 1 and its geometry |
| Frontend.LabelConfigOf | x6-for-vaadin-flow-root/x6-for-vaadin-flow/src/main/resources/META-INF/resources/frontend/src/x-6.ts:1543-1573 | one label configuration: the label's text, distance, fonts and fill; offset 0; `rx` and `ry` the label's border radius |
| Frontend.ShownCount | x6-for-vaadin-flow-root/x6-for-vaadin-flow/src/main/resources/META-INF/resources/frontend/src/x-6.ts:1536-1580 | never more labels drawn than given |
| Frontend.GetEdgeLabelsConfiguration | x6-for-vaadin-flow-root/x6-for-vaadin-flow/src/main/resources/META-INF/resources/frontend/src/x-6.ts:1536-1580 | as many configurations as labels with non-empty text and distance in [0, 1]; every configuration comes from such a label and every such label has one |
| Frontend.LabelsConfigurationDistributes | x6-for-vaadin-flow-root/x6-for-vaadin-flow/src/main/resources/META-INF/resources/frontend/src/x-6.ts:1540-1577 | labels are visited in order and independently, so the configurations keep input order |
| Frontend.AllShownLabelsAreConfigured | x6-for-vaadin-flow-root/x6-for-vaadin-flow/src/main/resources/META-INF/resources/frontend/src/x-6.ts:1536-1580 | when every label is drawn, configuration i belongs to label i |
| Frontend.GetEdgeConnector | x6-for-vaadin-flow-root/x6-for-vaadin-flow/src/main/resources/META-INF/resources/frontend/src/x-6.ts:1594-1613 | rounded with the border radius exactly when it is positive, `normal` without arguments otherwise |
| Frontend.GetVerticesFormat | x6-for-vaadin-flow-root/x6-for-vaadin-flow/src/main/resources/META-INF/resources/frontend/src/x-6.ts:1622-1627 | same length, order and coordinates |
| Frontend.GetNodePortConfiguration | x6-for-vaadin-flow-root/x6-for-vaadin-flow/src/main/resources/META-INF/resources/frontend/src/x-6.ts:1502-1534 | the empty object when the flag is off; exactly port `port1` in group `group1`, at 100% / 90%, when on |
| Frontend.PortConfigurationIsWellFormed | x6-for-vaadin-flow-root/x6-for-vaadin-flow/src/main/resources/META-INF/resources/frontend/src/x-6.ts:1502-1534 | every port item names a declared group |
| Frontend.GetNodeLabelConfiguration | x6-for-vaadin-flow-root/x6-for-vaadin-flow/src/main/resources/META-INF/resources/frontend/src/x-6.ts:1463-1494 | below the node (`100%`, 4 px, top anchor) exactly for position `bottom`, centred (0.5, middle) otherwise; text, fonts and visibility copied |
| Frontend.SendToBack | x6-for-vaadin-flow-root/x6-for-vaadin-flow/src/main/resources/META-INF/resources/frontend/src/x-6.ts:2255-2271 | the z-index becomes 1 |
| Frontend.MoveUpOneLevel | x6-for-vaadin-flow-root/x6-for-vaadin-flow/src/main/resources/META-INF/resources/frontend/src/x-6.ts:2235-2253 | one up unless the z-index is missing or zero, which stay |
| Frontend.MoveDownOneLevel | x6-for-vaadin-flow-root/x6-for-vaadin-flow/src/main/resources/META-INF/resources/frontend/src/x-6.ts:2273-2291 | one down only above 1; otherwise unchanged |
| Frontend.MoveDownStaysAtLeastOne | x6-for-vaadin-flow-root/x6-for-vaadin-flow/src/main/resources/META-INF/resources/frontend/src/x-6.ts:2273-2291 | moving down never takes a z-index of at least 1 below 1 |
| Frontend.MoveDownUndoesMoveUp | x6-for-vaadin-flow-root/x6-for-vaadin-flow/src/main/resources/META-INF/resources/frontend/src/x-6.ts:2235-2291 | down after up is the identity from 1 upward |
| Frontend.MoveUpUndoesMoveDown | x6-for-vaadin-flow-root/x6-for-vaadin-flow/src/main/resources/META-INF/resources/frontend/src/x-6.ts:2235-2291 | up after down is the identity above 1 |
| Frontend.SendToBackIsBottom | x6-for-vaadin-flow-root/x6-for-vaadin-flow/src/main/resources/META-INF/resources/frontend/src/x-6.ts:2255-2291 | the back is a fixed point of moving down |
| Frontend.MoveDownTimes | x6-for-vaadin-flow-root/x6-for-vaadin-flow/src/main/resources/META-INF/resources/frontend/src/x-6.ts:2273-2291 | `n` moves down lower an index above 1 by `n` but not below 1, and leave an index of 1 or less, or a missing one, as it is |
| Frontend.RepeatedMoveDownReachesBack | x6-for-vaadin-flow-root/x6-for-vaadin-flow/src/main/resources/META-INF/resources/frontend/src/x-6.ts:2255-2291 | z - 1 or more moves down from z reach exactly where `sendToBack` puts the cell |
| Frontend.MoveUpStopsAtZero | x6-for-vaadin-flow-root/x6-for-vaadin-flow/src/main/resources/META-INF/resources/frontend/src/x-6.ts:2239-2241 | -1 moves up to 0, and 0 (falsy) moves no further |
| Lookup.FindFirst | x6-for-vaadin-flow/src/main/java/com/neotropic/flow/component/antvx6/AntvX6.java:1030-1035 | the first element with the id, null when no element stops the scan, a null-pointer error when an element with a null id is reached first |
| Lookup.FindFirstWithoutNullIds | x6-for-vaadin-flow/src/main/java/com/neotropic/flow/component/antvx6/AntvX6.java:1030-1035 | without null ids, lookup never throws and finds something exactly when the id is held |
| Lookup.FindFirstOfMember | x6-for-vaadin-flow/src/main/java/com/neotropic/flow/component/antvx6/AntvX6.java:1030-1035 | looking up the id of a list element never answers null |
| Lookup.Keep | x6-for-vaadin-flow/src/main/java/com/neotropic/flow/component/antvx6/AntvX6.java:365-367 | removal keeps every element without the id and nothing else, and shortens the list exactly when the id was held |
| Lookup.KeepOne | x6-for-vaadin-flow/src/main/java/com/neotropic/flow/component/antvx6/AntvX6.java:365-367 | a single element is removed exactly when it has the id |
| Lookup.KeepDistributes | x6-for-vaadin-flow/src/main/java/com/neotropic/flow/component/antvx6/AntvX6.java:365-367 | removal from a concatenation is the concatenation of the removals, so the survivors keep their order |
| Lookup.RemoveWhere | x6-for-vaadin-flow/src/main/java/com/neotropic/flow/component/antvx6/AntvX6.java:365-367 | throws exactly when some id is null; otherwise leaves the survivors `Lookup.Keep` gives, in order, and reports whether any was removed |
| Lookup.KeepLeavesNoMatch | x6-for-vaadin-flow/src/main/java/com/neotropic/flow/component/antvx6/AntvX6.java:365-367 | after removal nothing with the id is left |
| Lookup.FindFirstSnoc | x6-for-vaadin-flow/src/main/java/com/neotropic/flow/component/antvx6/AntvX6.java:1030-1035 | lookup in a list grown at the end is decided by the old list first, then by the new element |
| Lookup.KeepKeepsUnique | x6-for-vaadin-flow/src/main/java/com/neotropic/flow/component/antvx6/AntvX6.java:365-367 | removal keeps ids unique |
| Lookup.AppendFreshKeepsUnique | x6-for-vaadin-flow/src/main/java/com/neotropic/flow/component/antvx6/AntvX6.java:516-521 | appending an element whose id lookup did not find keeps ids unique and non-null |
| Registry.NewRegistry | x6-for-vaadin-flow/src/main/java/com/neotropic/flow/component/antvx6/AntvX6.java:101-106 | a default background and empty node, text and edge lists |
| Registry.GetNodeById | x6-for-vaadin-flow/src/main/java/com/neotropic/flow/component/antvx6/AntvX6.java:1030-1035 | a node found is registered and has the id; with no null ids, lookup succeeds and finds exactly when the id is registered |
| Registry.GetNodeTextById | x6-for-vaadin-flow/src/main/java/com/neotropic/flow/component/antvx6/AntvX6.java:1056-1061 | the same for text nodes |
| Registry.GetEdgeById | x6-for-vaadin-flow/src/main/java/com/neotropic/flow/component/antvx6/AntvX6.java:1043-1048 | the same for edges |
| Registry.DrawNode | x6-for-vaadin-flow/src/main/java/com/neotropic/flow/component/antvx6/AntvX6.java:516-521 | always logs one draw command; appends the node only when lookup finds no node with its id, so a stored node is kept; throws only when the lookup throws |
| Registry.DrawNodeCenter | x6-for-vaadin-flow/src/main/java/com/neotropic/flow/component/antvx6/AntvX6.java:528-531 | logs one draw command and registers nothing |
| Registry.DrawText | x6-for-vaadin-flow/src/main/java/com/neotropic/flow/component/antvx6/AntvX6.java:538-543 | always logs one draw command; appends the text node only when lookup finds no text node with its id |
| Registry.DrawEdge | x6-for-vaadin-flow/src/main/java/com/neotropic/flow/component/antvx6/AntvX6.java:550-555 | serializes first (throwing on a null label), logs one draw command, appends only when lookup finds no edge with its id |
| Registry.DrawNodeBackground | x6-for-vaadin-flow/src/main/java/com/neotropic/flow/component/antvx6/AntvX6.java:504-509 | logs one draw command and never stores the background drawn; throws when there is no background |
| Registry.RemoveX6Node | x6-for-vaadin-flow/src/main/java/com/neotropic/flow/component/antvx6/AntvX6.java:365-367 | throws on a null id in the list; otherwise reports whether the id was there, removes all nodes with it, keeps the rest, touches nothing else |
| Registry.RemoveX6NodeText | x6-for-vaadin-flow/src/main/java/com/neotropic/flow/component/antvx6/AntvX6.java:375-377 | the same for text nodes |
| Registry.RemoveX6Edge | x6-for-vaadin-flow/src/main/java/com/neotropic/flow/component/antvx6/AntvX6.java:385-387 | the same for edges |
| Registry.RemoveX6Cell | x6-for-vaadin-flow/src/main/java/com/neotropic/flow/component/antvx6/AntvX6.java:355-357 | tries nodes, then text nodes, then edges; stops at the first list that had the id; reports whether any list had it |
| Registry.RemoveCell | x6-for-vaadin-flow/src/main/java/com/neotropic/flow/component/antvx6/AntvX6.java:344-347 | removes from the lists, then logs one remove command |
| Registry.CleanGraph | x6-for-vaadin-flow/src/main/java/com/neotropic/flow/component/antvx6/AntvX6.java:263-269 | empties the three lists, keeps the background, logs one clean command |
| Registry.RemoveNodeBackground | x6-for-vaadin-flow/src/main/java/com/neotropic/flow/component/antvx6/AntvX6.java:331-337 | logs one remove command, then blanks id, geometry and image and sets the image shape, every other field kept; throws when there is no background |
| Registry.Relaid | x6-for-vaadin-flow/src/main/java/com/neotropic/flow/component/antvx6/AntvX6.java:312-316 | a relaid text node differs only in its geometry, which the layout computes from the parent's geometry and the label |
| Registry.BackgroundCalls | x6-for-vaadin-flow/src/main/java/com/neotropic/flow/component/antvx6/AntvX6.java:305-306 | the background is drawn, with its own JSON, exactly when present with a non-blank id; otherwise nothing is sent |
| Registry.NodeCalls | x6-for-vaadin-flow/src/main/java/com/neotropic/flow/component/antvx6/AntvX6.java:308-309 | one node draw per node, in list order |
| Registry.TextCalls | x6-for-vaadin-flow/src/main/java/com/neotropic/flow/component/antvx6/AntvX6.java:311-318 | one text draw per text node, in list order |
| Registry.EdgeCalls | x6-for-vaadin-flow/src/main/java/com/neotropic/flow/component/antvx6/AntvX6.java:320-321 | one edge draw per edge, in list order |
| Registry.RedrawNodes | x6-for-vaadin-flow/src/main/java/com/neotropic/flow/component/antvx6/AntvX6.java:308-309 | the node pass logs one draw per node in order and changes nothing else |
| Registry.RedrawRegisteredText | x6-for-vaadin-flow/src/main/java/com/neotropic/flow/component/antvx6/AntvX6.java:538-543 | redrawing a registered text node only logs it |
| Registry.RedrawTextAt | x6-for-vaadin-flow/src/main/java/com/neotropic/flow/component/antvx6/AntvX6.java:311-317 | one text is relaid below its parent and drawn, nothing else changes; an unregistered parent throws |
| Registry.RedrawTexts | x6-for-vaadin-flow/src/main/java/com/neotropic/flow/component/antvx6/AntvX6.java:311-318 | every text node is relaid below its parent and drawn in order; lists keep their length; succeeds on a refreshable registry |
| Registry.RedrawRegisteredEdge | x6-for-vaadin-flow/src/main/java/com/neotropic/flow/component/antvx6/AntvX6.java:550-555 | redrawing a registered edge only logs it |
| Registry.RedrawEdges | x6-for-vaadin-flow/src/main/java/com/neotropic/flow/component/antvx6/AntvX6.java:320-321 | the edge pass logs one draw per edge in order and changes nothing else |
| Registry.RefreshCanvas | x6-for-vaadin-flow/src/main/java/com/neotropic/flow/component/antvx6/AntvX6.java:303-322 | logs clean, then the background if its id is not blank, every node, every relaid text node and every edge, in that order; lists keep background, nodes, edges and text count; throws only on an unregistered parent, a null id or an unserializable edge |
| RegistryLaws.NewRegistryIsHealthy | x6-for-vaadin-flow/src/main/java/com/neotropic/flow/component/antvx6/AntvX6.java:101-106 | a new registry has a background and no null or duplicate ids |
| RegistryLaws.OperationsKeepRegistryHealthy | x6-for-vaadin-flow/src/main/java/com/neotropic/flow/component/antvx6/AntvX6.java:263-555 | drawing identified cells, removing, cleaning and the background operations keep a background and unique non-null ids; only an unserializable edge throws |
| RegistryLaws.DrawNodeTwiceRegistersOnce | x6-for-vaadin-flow/src/main/java/com/neotropic/flow/component/antvx6/AntvX6.java:516-521 | drawing the same node twice registers it once |
| RegistryLaws.DrawTextTwiceRegistersOnce | x6-for-vaadin-flow/src/main/java/com/neotropic/flow/component/antvx6/AntvX6.java:538-543 | drawing the same text node twice registers it once |
| RegistryLaws.DrawEdgeTwiceRegistersOnce | x6-for-vaadin-flow/src/main/java/com/neotropic/flow/component/antvx6/AntvX6.java:550-555 | drawing the same edge twice registers it once |
| RegistryLaws.NodeWithoutIdBreaksLookups | x6-for-vaadin-flow/src/main/java/com/neotropic/flow/component/antvx6/AntvX6.java:516-521 | a node drawn with a null id is registered, and afterwards every lookup of an unregistered id throws |
| RegistryLaws.RemoveAbsentCellChangesNothing | x6-for-vaadin-flow/src/main/java/com/neotropic/flow/component/antvx6/AntvX6.java:344-387 | an id no list holds: nothing removed, false reported, only the remove command logged |
| RegistryLaws.RemovedCellIsGone | x6-for-vaadin-flow/src/main/java/com/neotropic/flow/component/antvx6/AntvX6.java:344-387 | after removal of an id held by one kind of cell, lookups find nothing |
| RegistryLaws.RemoveCellTouchesFirstHolder | x6-for-vaadin-flow/src/main/java/com/neotropic/flow/component/antvx6/AntvX6.java:355-387 | exactly one list changes, the first holding the id, and every cell with the id leaves it |
| RegistryLaws.SharedIdRemovesOnlyTheNode | x6-for-vaadin-flow/src/main/java/com/neotropic/flow/component/antvx6/AntvX6.java:355-357 | an id shared by a node and an edge: only the node is removed |
| RegistryLaws.DrawBackgroundKeepsRegisteredOne | x6-for-vaadin-flow/src/main/java/com/neotropic/flow/component/antvx6/AntvX6.java:504-509 | drawing a background never replaces the stored one |
| PipelineLaws.WireOfNode | x6-for-vaadin-flow/src/main/java/com/neotropic/flow/component/antvx6/jsonGenerator/JsonGenerator.java:32-83 | the browser's view of a node has the node's fields and port flag |
| PipelineLaws.ConnectorFollowsImportedRounding | x6-for-vaadin-flow-root/x6-for-vaadin-flow/src/main/resources/META-INF/resources/frontend/src/x-6.ts:1594-1613 | after importing a style map, the edge gets a rounded connector of radius 12 exactly when `rounded` is present, non-blank and not `"0"` |
| PipelineLaws.EveryPlacedLabelIsDrawn | x6-for-vaadin-flow-root/x6-for-vaadin-flow/src/main/resources/META-INF/resources/frontend/src/x-6.ts:1536-1580 | an edge whose labels all have text and lie on the path is drawn with one label per Java label, in order, same text and distance |
| PipelineLaws.LabelledEdgeIsDrawnWithItsLabel | x6-for-vaadin-flow-root/x6-for-vaadin-flow/src/main/resources/META-INF/resources/frontend/src/x-6.ts:1536-1580 | the edge built with label `cost` is drawn with that one label at 0.5 |
| PipelineLaws.NodeLabelPlacementFollowsPosition | x6-for-vaadin-flow-root/x6-for-vaadin-flow/src/main/resources/META-INF/resources/frontend/src/x-6.ts:1463-1494 | the label hangs below the node exactly when the Java label position is `bottom`; otherwise it is centred |
| PipelineLaws.PortFollowsFlag | x6-for-vaadin-flow-root/x6-for-vaadin-flow/src/main/resources/META-INF/resources/frontend/src/x-6.ts:1502-1534 | a node shows a port exactly when its Java port flag is set |
| PipelineLaws.VerticesReachTheBrowser | x6-for-vaadin-flow-root/x6-for-vaadin-flow/src/main/resources/META-INF/resources/frontend/src/x-6.ts:1622-1627 | the browser routes an edge through its Java vertices, in order, a null vertex at the origin |
| Text.IntToStringZero | x6-flow-root/x6-flow/src/main/java/com/neotropic/flow/component/antvx6/utilities/X6EdgeUtilities.java:84-86 | the text `borderRadius + ""` is `"0"` exactly for a zero radius and is never blank |

## Left out

- Vaadin events, listener registration, property setters, plugins, tools,
  and the `initEvent…` methods: they only forward to the browser and hold no
  logic.
- Most of `x-6.ts`: graph construction, event handlers, the context-menu
  DOM, export, and every call into the AntV X6 library.
- The JSON text: Gson's `toString()` output, key order, and the difference
  between `0` and `0.0` are not modelled. Nor is parsing JSON text back
  (`JSONtoVertices`). JSON is a value, and the browser reads it through
  `Wire`.
- Floating point: reals have no NaN, infinities or `-0.0`. `Double.toString(-0.0)`
  is `"-0.0"`, which imports as dash 5, and that case is outside `Text.Faithful`.
- Java `int` width: border radius and z-index are unbounded integers. No
  Java operation modelled does arithmetic on them. The browser's
  increments are unbounded too, not IEEE doubles.
- Aliasing: `new X6Edge(id, source, target, labels)` shares the caller's
  list, so later changes to it show in the edge. `getLabelAt` returns the
  label object itself. Values cannot alias, so a change made through such a
  reference is modelled as an explicit replacement (`Cells.ReplaceLabelAt`).
- Null arguments: a null cell passed to a draw method or to the serializer,
  a null edge passed to the label style functions or to `setEdgeStyles`, a
  null style map, and null values inside a style map all throw or are
  impossible in Java. The model takes non-null values there.
  `setStylesToMap`, which guards a null edge itself, models it.
- `X6Cell`, `X6Node`, `X6NodeText`, `X6NodeBackground`, `X6EdgeLabel`,
  `X6NodeLabelStyles`, `Geometry`, `Vertex`, `X6Constants` and
  `X6NodeTextUtilities` are not part of this model. They are minimal records,
  stand-in constants and a layout parameter. The model takes the layout to be
  defined for a null parent geometry too.
- Edge labels: `X6EdgeUtilities` works on the `X6EdgeLabel` class of the
  `x6-flow` module and reads its styles with `getStyles()`, while
  `JsonGenerator` works on the `X6EdgeLabel` class of the `x6-for-vaadin-flow`
  module and reads `getEdgeLabelStyles()`. The model has one label record
  with one style field (`Cells.EdgeLabel`, field `styles`), so it takes the
  two classes to carry the same styles.
- Direct access to the registry's lists and background slot: `AntvX6` has
  Lombok `@Getter` and `@Setter` (AntvX6.java:68). Callers can replace a list
  with null, put null elements or duplicates into it, or change it through
  the getter, and `setNodeBackground(null)` empties the background slot,
  which no modelled operation does. Only the
  component's own operations are modelled, and the laws about the registry
  (`RegistryLaws.OperationsKeepRegistryHealthy` and the others) hold only
  for those operations.
- `bringToFront`: it sets the z-index to the number of cells in the AntV X6
  graph, which is library state outside this model.
- Frontend.SendToBack, Frontend.MoveUpOneLevel, Frontend.MoveDownOneLevel:
  these model the z-index rule only. They leave out the lookup of the cell
  from the context menu, the events dispatched, and fractional z-index values.
- Registry.DrawNode: when the lookup throws, the Java object has already sent
  the draw call. The model returns `Err` without that log entry.
- Registry.DrawText: the same as `DrawNode`.
- Registry.DrawNodeBackground: when the background slot is null, the Java
  object has already sent the `drawBackground` call before its test throws.
  The model returns `Err` without that log entry.
- Registry.RemoveNodeBackground: when the background slot is null, the Java
  object has already sent the `removeBackground` call before blanking the id
  throws. The model returns `Err` without that log entry.
- Registry.DrawEdge: the same as `DrawNode`, after a successful serialization.
- Registry.RefreshCanvas: when the refresh throws partway, the calls already
  made and the text nodes already relaid are not kept.
- EdgeUtilities.SetEdgeStyles: when the stroke width does not parse, the
  stroke colour, dash and radius have already been written in Java. The model
  returns only `Err`.
- EdgeUtilities.SetLabelStyles: the contract does not say which exception is
  raised when both a null label style object and an unparseable font size
  are present.
- Registry.RemoveX6Cell: its own contract gives the order of the three lists
  and the combined answer. That exactly one list changes is stated by
  `RegistryLaws.RemoveCellTouchesFirstHolder` for lists without null ids.
