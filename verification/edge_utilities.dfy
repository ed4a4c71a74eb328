/**
 * Style reconciliation for edges (`X6EdgeUtilities`): exporting the typed
 * edge and edge-label styles into the edge's string-keyed style map, and
 * importing such a map back into the typed styles.
 *
 * Export fills in defaults for blank colours and writes them back into the
 * typed object. Import substitutes a default for every absent or blank
 * entry and quantises two fields: dash becomes 0 or 5, border radius 0 or 12.
 */
module EdgeUtilities {
  import opened Wrappers
  import opened Text
  import opened Constants
  import opened Styles
  import opened Cells

  /** The guard `map.containsKey(k) && !map.get(k).isBlank()`. */
  predicate Present(m: map<string, string>, k: string) {
    k in m && !IsBlank(m[k])
  }

  /** The four keys edge-style export writes. */
  predicate IsEdgeStyleKey(k: string) {
    k == StyleStrokeColor || k == StyleDashed || k == StyleRounded || k == StyleStrokeWidth
  }

  /** `setStylesToMap`: does nothing on a null edge. Otherwise a null style
      object or style map is first replaced by a default one, a null or
      blank stroke colour becomes `"black"` in the typed styles, and the four
      edge styles are written into the map. */
  function SetStylesToMap(edge: Option<Edge>, t: DoubleText): (r: Option<Edge>)
    ensures edge.None? <==> r.None?
    ensures edge.Some? ==>
      var e := edge.value;
      var es := e.edgeStyles.GetOr(NewEdgeStyles());
      var out := r.value;
      && out.edgeStyles.Some? && out.cell.styles.Some?
      && var es' := out.edgeStyles.value;
      && var m' := out.cell.styles.value;
      // the typed stroke colour is non-blank and agrees with the map
      && es'.strokeColor.Some? && !IsBlank(es'.strokeColor.value)
      && StyleStrokeColor in m' && m'[StyleStrokeColor] == es'.strokeColor.value
      && (NullOrBlank(es.strokeColor) ==> es'.strokeColor == Some("black"))
      && (!NullOrBlank(es.strokeColor) ==> es'.strokeColor == es.strokeColor)
      // the other typed fields keep their values and are rendered into the map
      && es' == es.(strokeColor := es'.strokeColor)
      && StyleDashed in m' && m'[StyleDashed] == t.format(es.dash)
      && StyleRounded in m' && m'[StyleRounded] == IntToString(es.borderRadius)
      && StyleStrokeWidth in m' && m'[StyleStrokeWidth] == t.format(es.strokeWidth)
      // entries under other keys survive
      && (forall k :: k in e.cell.styles.GetOr(map[]) && !IsEdgeStyleKey(k) ==>
            k in m' && m'[k] == e.cell.styles.value[k])
      // nothing else about the edge changes
      && out.(edgeStyles := e.edgeStyles, cell := e.cell) == e
      && out.cell.(styles := e.cell.styles) == e.cell
  {
    match edge
    case None => None
    case Some(e) =>
      var es := e.edgeStyles.GetOr(NewEdgeStyles());
      var m := e.cell.styles.GetOr(map[]);
      var stroke := if NullOrBlank(es.strokeColor) then "black" else es.strokeColor.value;
      BlackIsNotBlank();
      var m' := m[StyleStrokeColor := stroke]
                 [StyleDashed := t.format(es.dash)]
                 [StyleRounded := IntToString(es.borderRadius)]
                 [StyleStrokeWidth := t.format(es.strokeWidth)];
      Some(e.(edgeStyles := Some(es.(strokeColor := Some(stroke))),
              cell := e.cell.(styles := Some(m'))))
  }

  /** `setLabelStylesToMap`: does nothing when there is no label at `pos`.
      Otherwise a null label style object is replaced by a default one, a
      blank font colour becomes `"black"` and a blank font family `"Arial"`,
      both persisted into the label, and the three font styles are written
      into the edge's map. */
  function SetLabelStylesToMap(edge: Edge, pos: int, t: DoubleText): (r: Result<Edge>)
    ensures r.Err? <==> GetLabelAt(edge, pos).Err?
    ensures GetLabelAt(edge, pos) == Ok(None) ==> r == Ok(edge)
    ensures GetLabelAt(edge, pos).Ok? && GetLabelAt(edge, pos).value.Some? ==>
      var l := GetLabelAt(edge, pos).value.value;
      var ls := l.styles.GetOr(NewEdgeLabelStyles());
      && r.Ok?
      && GetLabelAt(r.value, pos).Ok? && GetLabelAt(r.value, pos).value.Some?
      && var l' := GetLabelAt(r.value, pos).value.value;
      && l'.styles.Some?
      && var ls' := l'.styles.value;
      && ls'.fontColor.Some? && !IsBlank(ls'.fontColor.value)
      && ls'.fontFamily.Some? && !IsBlank(ls'.fontFamily.value)
      && (NullOrBlank(ls.fontColor) ==> ls'.fontColor == Some("black"))
      && (!NullOrBlank(ls.fontColor) ==> ls'.fontColor == ls.fontColor)
      && (NullOrBlank(ls.fontFamily) ==> ls'.fontFamily == Some("Arial"))
      && (!NullOrBlank(ls.fontFamily) ==> ls'.fontFamily == ls.fontFamily)
      && ls' == ls.(fontColor := ls'.fontColor, fontFamily := ls'.fontFamily)
      && l' == l.(styles := Some(ls'))
      && r.value.cell.styles.Some?
      && var m' := r.value.cell.styles.value;
      && StyleFontSize in m' && m'[StyleFontSize] == t.format(ls.fontSize)
      && StyleFontColor in m' && m'[StyleFontColor] == ls'.fontColor.value
      && StyleFontFamily in m' && m'[StyleFontFamily] == ls'.fontFamily.value
      && |r.value.edgeLabels.value| == |edge.edgeLabels.value|
      && (forall i :: 0 <= i < |edge.edgeLabels.value| && i != pos ==>
            r.value.edgeLabels.value[i] == edge.edgeLabels.value[i])
  {
    var found :- GetLabelAt(edge, pos);
    match found
    case None => Ok(edge)
    case Some(l) =>
      var ls := l.styles.GetOr(NewEdgeLabelStyles());
      var m := edge.cell.styles.GetOr(map[]);
      var color := if NullOrBlank(ls.fontColor) then "black" else ls.fontColor.value;
      var family := if NullOrBlank(ls.fontFamily) then "Arial" else ls.fontFamily.value;
      BlackIsNotBlank();
      ArialIsNotBlank();
      var m' := m[StyleFontSize := t.format(ls.fontSize)]
                 [StyleFontColor := color]
                 [StyleFontFamily := family];
      var l' := l.(styles := Some(ls.(fontColor := Some(color), fontFamily := Some(family))));
      Ok(ReplaceLabelAt(edge.(cell := edge.cell.(styles := Some(m'))), pos, l'))
  }

  /** Imported stroke colour: the map's entry when present and non-blank,
      otherwise whatever the map holds under the literal key `"black"` (null
      when there is no such key), not the colour `"black"` itself. */
  function ImportedStrokeColor(m: map<string, string>): (r: Option<string>)
    ensures Present(m, StyleStrokeColor) ==> r == Some(m[StyleStrokeColor])
    ensures !Present(m, StyleStrokeColor) && "black" !in m ==> r.None?
    ensures !Present(m, StyleStrokeColor) && "black" in m ==> r == Some(m["black"])
  {
    if Present(m, StyleStrokeColor) then Some(m[StyleStrokeColor])
    else if "black" in m then Some(m["black"])
    else None
  }

  /** Imported dash: 0 for an absent or blank entry and for `"0"` and
      `"0.0"`, 5 for any other text. */
  function ImportedDash(m: map<string, string>): (r: real)
    ensures r == 0.0 || r == 5.0
    ensures r == 0.0 <==>
      !Present(m, StyleDashed) || m[StyleDashed] == "0" || m[StyleDashed] == "0.0"
  {
    if Present(m, StyleDashed) && m[StyleDashed] != "0" && m[StyleDashed] != "0.0" then 5.0
    else 0.0
  }

  /** Imported border radius: 0 for an absent or blank entry and for exactly
      `"0"`, 12 for any other text, `"0.0"` included. */
  function ImportedRadius(m: map<string, string>): (r: int)
    ensures r == 0 || r == 12
    ensures r == 0 <==> !Present(m, StyleRounded) || m[StyleRounded] == "0"
  {
    if Present(m, StyleRounded) && m[StyleRounded] != "0" then 12 else 0
  }

  /** A numeric style: `Double.parseDouble` of the entry when present and
      non-blank (throwing on text that is not a number), otherwise the
      default. */
  function ImportedNumber(m: map<string, string>, k: string, default: real, t: DoubleText): (r: Result<real>)
    ensures !Present(m, k) ==> r == Ok(default)
    ensures Present(m, k) && t.parse(m[k]).None? ==> r == Err(NumberFormat)
    ensures Present(m, k) && t.parse(m[k]).Some? ==> r == Ok(t.parse(m[k]).value)
  {
    if !Present(m, k) then Ok(default)
    else match t.parse(m[k])
      case None => Err(NumberFormat)
      case Some(d) => Ok(d)
  }

  /** `setEdgeStyles`: imports stroke colour, dash, border radius and stroke
      width from the map; the z-index is never touched. A null style object
      throws, and so does an unparseable stroke width. */
  function SetEdgeStyles(edge: Edge, m: map<string, string>, t: DoubleText): (r: Result<Edge>)
    ensures edge.edgeStyles.None? ==> r == Err(NullPointer)
    ensures edge.edgeStyles.Some? ==>
      (r.Err? <==> ImportedNumber(m, StyleStrokeWidth, 1.0, t).Err?)
    ensures r.Ok? ==>
      var es := edge.edgeStyles.value;
      && r.value.edgeStyles.Some?
      && r.value.edgeStyles.value == EdgeStyles(
           ImportedStrokeColor(m),
           ImportedNumber(m, StyleStrokeWidth, 1.0, t).value,
           ImportedDash(m),
           ImportedRadius(m),
           es.zIndex)
      && r.value.(edgeStyles := edge.edgeStyles) == edge
  {
    match edge.edgeStyles
    case None => Err(NullPointer)
    case Some(es) =>
      var width :- ImportedNumber(m, StyleStrokeWidth, 1.0, t);
      Ok(edge.(edgeStyles := Some(es.(strokeColor := ImportedStrokeColor(m),
                                       dash := ImportedDash(m),
                                       borderRadius := ImportedRadius(m),
                                       strokeWidth := width))))
  }

  /** `setLabelStyles`: does nothing when there is no label at `pos`.
      Otherwise font size (default 14), font colour (default `"black"`) and
      font family (default `"Helvetica"`, unlike the `"Arial"` of export) are
      imported into the label. An unparseable font size throws, and so does a
      label whose style object is null. */
  function SetLabelStyles(edge: Edge, pos: int, m: map<string, string>, t: DoubleText): (r: Result<Edge>)
    ensures GetLabelAt(edge, pos).Err? ==> r.Err?
    ensures GetLabelAt(edge, pos) == Ok(None) ==> r == Ok(edge)
    ensures GetLabelAt(edge, pos).Ok? && GetLabelAt(edge, pos).value.Some? ==>
      var l := GetLabelAt(edge, pos).value.value;
      && (r.Err? <==> ImportedNumber(m, StyleFontSize, 14.0, t).Err? || l.styles.None?)
      && (r.Ok? ==>
           && GetLabelAt(r.value, pos) == Ok(Some(l.(styles := Some(l.styles.value.(
                fontSize := ImportedNumber(m, StyleFontSize, 14.0, t).value,
                fontColor := Some(if Present(m, StyleFontColor) then m[StyleFontColor] else "black"),
                fontFamily := Some(if Present(m, StyleFontFamily) then m[StyleFontFamily] else "Helvetica"))))))
           && |r.value.edgeLabels.value| == |edge.edgeLabels.value|
           && (forall i :: 0 <= i < |edge.edgeLabels.value| && i != pos ==>
                 r.value.edgeLabels.value[i] == edge.edgeLabels.value[i])
           && r.value.(edgeLabels := edge.edgeLabels) == edge)
  {
    var found :- GetLabelAt(edge, pos);
    match found
    case None => Ok(edge)
    case Some(l) =>
      var size :- ImportedNumber(m, StyleFontSize, 14.0, t);
      match l.styles
      case None => Err(NullPointer)
      case Some(ls) =>
        var color := if Present(m, StyleFontColor) then m[StyleFontColor] else "black";
        var family := if Present(m, StyleFontFamily) then m[StyleFontFamily] else "Helvetica";
        Ok(ReplaceLabelAt(edge, pos, l.(styles := Some(ls.(fontSize := size,
                                                          fontColor := Some(color),
                                                          fontFamily := Some(family))))))
  }
}
