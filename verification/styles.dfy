/**
 * The style value objects: plain attribute bags with hard-coded defaults
 * (`X6NodeStyles`, `X6EdgeStyles`, `X6EdgeLabelStyles`), and the node-label
 * style bag they sit beside (`X6NodeLabelStyles`).
 *
 * String attributes are nullable Java references; `double` attributes are
 * `real`; `int` attributes are `int` (no style operation does arithmetic on
 * them, so 32-bit wrap-around never arises).
 */
module Styles {
  import opened Wrappers
  import opened Constants

  /** Appearance of a node. Unlike an edge, a node keeps its dash as text. */
  datatype NodeStyles = NodeStyles(
    fillColor: Option<string>,
    strokeColor: Option<string>,
    strokeWidth: real,
    dash: Option<string>,
    borderRadius: int,
    zIndex: int)

  /** Appearance of an edge line. */
  datatype EdgeStyles = EdgeStyles(
    strokeColor: Option<string>,
    strokeWidth: real,
    dash: real,
    borderRadius: int,
    zIndex: int)

  /** Appearance of one label placed on an edge. */
  datatype EdgeLabelStyles = EdgeLabelStyles(
    fillColor: Option<string>,
    fontColor: Option<string>,
    fontSize: real,
    fontFamily: Option<string>,
    borderRadius: int)

  /** Appearance of a node's label. */
  datatype NodeLabelStyles = NodeLabelStyles(
    fontColor: Option<string>,
    fontSize: real,
    fontFamily: Option<string>,
    labelPosition: Option<string>,
    visibility: Option<string>)

  /** `new X6NodeStyles()`. */
  function NewNodeStyles(): (s: NodeStyles)
    ensures s.fillColor == Some(GraphBackgroundColor)
    ensures s.strokeColor == Some("black") && s.strokeWidth == 1.0
    ensures s.dash == Some("0")
    ensures s.borderRadius == 0 && s.zIndex == 1
  {
    NodeStyles(Some(GraphBackgroundColor), Some("black"), 1.0, Some("0"), 0, 1)
  }

  /** `new X6EdgeStyles()`. */
  function NewEdgeStyles(): (s: EdgeStyles)
    ensures s.strokeColor == Some("black") && s.strokeWidth == 1.0
    ensures s.dash == 0.0 && s.borderRadius == 0
    ensures s.zIndex == 1
  {
    EdgeStyles(Some("black"), 1.0, 0.0, 0, 1)
  }

  /** `new X6EdgeLabelStyles()`. */
  function NewEdgeLabelStyles(): (s: EdgeLabelStyles)
    ensures s.fillColor == Some(GraphBackgroundColor)
    ensures s.fontColor == Some("black") && s.fontSize == 14.0
    ensures s.fontFamily == Some("Arial") && s.borderRadius == 0
  {
    EdgeLabelStyles(Some(GraphBackgroundColor), Some("black"), 14.0, Some("Arial"), 0)
  }

  /** `new X6NodeLabelStyles()`. That class is not part of this model: this
      record stands for its default instance, and no property depends on its
      field values. */
  const DefaultNodeLabelStyles: NodeLabelStyles := NodeLabelStyles(None, 0.0, None, None, None)
}
