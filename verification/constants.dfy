/**
 * The named constants of the component (`X6Constants`). Their Java values are
 * not part of this model; every constant here is a stand-in, and the model
 * only relies on the style keys being pairwise distinct and different from
 * `"black"`, which holds for these literals.
 */
module Constants {

  /** `CELL_NODE` and `CELL_EDGE`: the two kinds of cell. */
  datatype CellType = NodeCell | EdgeCell

  /** Fill colour of new node and edge-label styles (`GRAPH_BACKGROUND_COLOR`). */
  const GraphBackgroundColor: string := "graph-background-color"

  /** Shape given to the background when it is removed (`SHAPE_IMAGE`). */
  const ShapeImage: string := "image"

  /** Keys of the string-keyed style map of an edge. */
  const StyleStrokeColor: string := "strokeColor"
  const StyleDashed: string := "dashed"
  const StyleRounded: string := "rounded"
  const StyleStrokeWidth: string := "strokeWidth"
  const StyleFontSize: string := "fontSize"
  const StyleFontColor: string := "fontColor"
  const StyleFontFamily: string := "fontFamily"
}
