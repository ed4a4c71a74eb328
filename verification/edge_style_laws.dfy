/**
 * How style export and import compose. Export followed by import gives back
 * the stroke colour, stroke width and z-index, and collapses dash and border
 * radius to their two representatives; for edge labels the composition
 * changes nothing at all.
 */
module EdgeStyleLaws {
  import opened Wrappers
  import opened Text
  import opened Constants
  import opened Styles
  import opened Cells
  import opened EdgeUtilities

  /** Dash after an export/import round trip: zero stays zero, anything else
      becomes 5. */
  function QuantisedDash(d: real): real {
    if d == 0.0 then 0.0 else 5.0
  }

  /** Border radius after an export/import round trip: zero stays zero,
      anything else becomes 12. */
  function QuantisedRadius(r: int): int {
    if r == 0 then 0 else 12
  }

  /** Exporting an edge's styles into its map and importing that map back
      succeeds, returns the stroke colour export settled on (the original
      one when it was non-blank), the same stroke width and z-index, and the
      quantised dash and border radius. */
  lemma ExportThenImportEdgeStyles(e: Edge, t: DoubleText)
    requires Faithful(t)
    requires var es := e.edgeStyles.GetOr(NewEdgeStyles());
      t.isDouble(es.dash) && t.isDouble(es.strokeWidth)
    ensures
      var es := e.edgeStyles.GetOr(NewEdgeStyles());
      var x := SetStylesToMap(Some(e), t).value;
      var r := SetEdgeStyles(x, x.cell.styles.value, t);
      && r.Ok?
      && var back := r.value.edgeStyles.value;
      && back.strokeColor == x.edgeStyles.value.strokeColor
      && (!NullOrBlank(es.strokeColor) ==> back.strokeColor == es.strokeColor)
      && back.strokeWidth == es.strokeWidth
      && back.dash == QuantisedDash(es.dash)
      && back.borderRadius == QuantisedRadius(es.borderRadius)
      && back.zIndex == es.zIndex
  {
    var es := e.edgeStyles.GetOr(NewEdgeStyles());
    var x := SetStylesToMap(Some(e), t).value;
    var m := x.cell.styles.value;
    IntToStringZero(es.borderRadius);
    assert t.format(es.dash) == "0.0" <==> es.dash == 0.0;
    assert t.format(es.dash) != "0" && !IsBlank(t.format(es.dash));
    assert t.parse(t.format(es.strokeWidth)) == Some(es.strokeWidth);
    assert !IsBlank(t.format(es.strokeWidth));
    assert ImportedDash(m) == QuantisedDash(es.dash);
    assert ImportedRadius(m) == QuantisedRadius(es.borderRadius);
    assert ImportedNumber(m, StyleStrokeWidth, 1.0, t) == Ok(es.strokeWidth);
  }

  /** Styles that are already quantised, with a non-blank stroke colour,
      survive an export/import round trip exactly. */
  lemma QuantisedStylesRoundTripExactly(e: Edge, t: DoubleText)
    requires Faithful(t)
    requires e.edgeStyles.Some?
    requires !NullOrBlank(e.edgeStyles.value.strokeColor)
    requires e.edgeStyles.value.dash == 0.0 || e.edgeStyles.value.dash == 5.0
    requires t.isDouble(e.edgeStyles.value.strokeWidth)
    requires e.edgeStyles.value.borderRadius == 0 || e.edgeStyles.value.borderRadius == 12
    ensures
      var x := SetStylesToMap(Some(e), t).value;
      var r := SetEdgeStyles(x, x.cell.styles.value, t);
      r.Ok? && r.value.edgeStyles == e.edgeStyles
  {
    ExportThenImportEdgeStyles(e, t);
  }

  /** Once a map has been imported, exporting and importing again is the
      identity on the exported styles: import lands on the fixed points of
      the round trip. No condition on the values is needed, since import
      only produces doubles. */
  lemma ImportIsStableUnderRoundTrip(e: Edge, m: map<string, string>, t: DoubleText)
    requires Faithful(t)
    requires SetEdgeStyles(e, m, t).Ok?
    ensures
      var x := SetStylesToMap(Some(SetEdgeStyles(e, m, t).value), t).value;
      var r := SetEdgeStyles(x, x.cell.styles.value, t);
      r.Ok? && r.value.edgeStyles == x.edgeStyles
  {
    var a := SetEdgeStyles(e, m, t).value;
    ExportThenImportEdgeStyles(a, t);
  }

  /** Exporting the styles of the label at `pos` and importing the resulting
      map back into that label leaves the edge exactly as export left it. */
  lemma ExportThenImportLabelStyles(e: Edge, pos: int, t: DoubleText)
    requires Faithful(t)
    requires GetLabelAt(e, pos).Ok? && GetLabelAt(e, pos).value.Some?
    requires t.isDouble(GetLabelAt(e, pos).value.value.styles.GetOr(NewEdgeLabelStyles()).fontSize)
    ensures SetLabelStylesToMap(e, pos, t).Ok?
    ensures
      var x := SetLabelStylesToMap(e, pos, t).value;
      SetLabelStyles(x, pos, x.cell.styles.value, t) == Ok(x)
  {
    var x := SetLabelStylesToMap(e, pos, t).value;
    var m := x.cell.styles.value;
    var l' := GetLabelAt(x, pos).value.value;
    var ls' := l'.styles.value;
    assert t.parse(t.format(ls'.fontSize)) == Some(ls'.fontSize);
    assert !IsBlank(t.format(ls'.fontSize));
    assert ImportedNumber(m, StyleFontSize, 14.0, t) == Ok(ls'.fontSize);
    var r := SetLabelStyles(x, pos, m, t);
    assert GetLabelAt(r.value, pos) == Ok(Some(l'));
    assert r.value.edgeLabels.value == x.edgeLabels.value;
  }
}
