/**
 * The browser side (`x-6.ts`): the helpers that turn the objects the
 * serializer sent into AntV X6 configuration, and the z-index rules of the
 * context menu.
 *
 * The helpers read the typed view of the JSON (module `Wire`), so every
 * field they touch is present. Configuration objects are records holding
 * every field the helper writes, the fixed ones included.
 */
module Frontend {
  import opened Wrappers
  import opened Wire

  // ---------------------------------------------------------------------
  // Edge labels
  // ---------------------------------------------------------------------

  /** The `text` attributes of a label. */
  datatype TextAttrs = TextAttrs(
    text: string, fontSize: real, fontFamily: string, fill: string,
    textAnchor: string, textVerticalAnchor: string)

  /** The `rect` attributes of a label: a box around the text. */
  datatype RectAttrs = RectAttrs(
    fill: string, refTo: string, refX: real, refY: real, refWidth: string, refHeight: string,
    refWidth2: real, refHeight2: real, stroke: string, strokeWidth: real, rx: real, ry: real)

  /** One label as AntV X6 takes it: attributes plus a position along the edge. */
  datatype LabelConfig = LabelConfig(text: TextAttrs, rect: RectAttrs, distance: real, offset: real)

  /** Whether a label is drawn: it has non-empty text and a distance within
      the path (both ends included). */
  predicate Shown(l: WireEdgeLabel) {
    l.text != "" && 0.0 <= l.distance <= 1.0
  }

  /** The configuration of one label. */
  function LabelConfigOf(l: WireEdgeLabel): (c: LabelConfig)
    ensures c.text.text == l.text && c.distance == l.distance && c.offset == 0.0
    ensures c.text.fontSize == l.styles.fontSize && c.text.fontFamily == l.styles.fontFamily
    ensures c.text.fill == l.styles.fontColor && c.rect.fill == l.styles.fillColor
    ensures c.rect.rx == l.styles.borderRadius && c.rect.ry == l.styles.borderRadius
    ensures c.rect.stroke == "black" && c.rect.refTo == "text"
  {
    var s := l.styles;
    LabelConfig(
      TextAttrs(l.text, s.fontSize, s.fontFamily, s.fontColor, "middle", "middle"),
      RectAttrs(s.fillColor, "text", -4.0, -2.0, "100%", "100%", 8.0, 5.0, "black", 1.0,
                s.borderRadius, s.borderRadius),
      l.distance, 0.0)
  }

  /** How many labels are drawn. */
  function ShownCount(ls: seq<WireEdgeLabel>): (n: nat)
    ensures n <= |ls|
  {
    if |ls| == 0 then 0
    else ShownCount(ls[..|ls| - 1]) + (if Shown(ls[|ls| - 1]) then 1 else 0)
  }

  /** `getEdgeLabelsConfiguration`: one configuration per drawn label, in
      the order of the labels; labels with empty text or a distance outside
      `[0, 1]` are skipped silently. */
  function GetEdgeLabelsConfiguration(ls: seq<WireEdgeLabel>): (r: seq<LabelConfig>)
    ensures |r| == ShownCount(ls)
    ensures forall c :: c in r ==> exists l :: l in ls && Shown(l) && c == LabelConfigOf(l)
    ensures forall l :: l in ls && Shown(l) ==> LabelConfigOf(l) in r
  {
    if |ls| == 0 then []
    else
      var front := GetEdgeLabelsConfiguration(ls[..|ls| - 1]);
      var last := ls[|ls| - 1];
      assert ls == ls[..|ls| - 1] + [last];
      if Shown(last) then front + [LabelConfigOf(last)] else front
  }

  /** The configuration of a concatenation is the concatenation of the
      configurations: labels are visited in order and independently. */
  lemma {:induction false} LabelsConfigurationDistributes(a: seq<WireEdgeLabel>, b: seq<WireEdgeLabel>)
    ensures GetEdgeLabelsConfiguration(a + b) == GetEdgeLabelsConfiguration(a) + GetEdgeLabelsConfiguration(b)
    decreases |b|
  {
    if |b| == 0 {
      assert a + b == a;
    } else {
      var b' := b[..|b| - 1];
      assert (a + b)[..|a + b| - 1] == a + b';
      assert (a + b)[|a + b| - 1] == b[|b| - 1];
      LabelsConfigurationDistributes(a, b');
    }
  }

  /** When every label is drawn, configuration is a pointwise map. */
  lemma {:induction false} AllShownLabelsAreConfigured(ls: seq<WireEdgeLabel>)
    requires forall i :: 0 <= i < |ls| ==> Shown(ls[i])
    ensures |GetEdgeLabelsConfiguration(ls)| == |ls|
    ensures forall i :: 0 <= i < |ls| ==> GetEdgeLabelsConfiguration(ls)[i] == LabelConfigOf(ls[i])
  {
    if |ls| > 0 {
      var front := ls[..|ls| - 1];
      AllShownLabelsAreConfigured(front);
      var r := GetEdgeLabelsConfiguration(ls);
      var rf := GetEdgeLabelsConfiguration(front);
      assert Shown(ls[|ls| - 1]);
      assert r == rf + [LabelConfigOf(ls[|ls| - 1])];
      forall i | 0 <= i < |ls|
        ensures r[i] == LabelConfigOf(ls[i])
      {
        if i < |front| {
          assert ls[i] == front[i];
          assert r[i] == rf[i];
        }
      }
    }
  }

  // ---------------------------------------------------------------------
  // Connector and vertices
  // ---------------------------------------------------------------------

  /** A connector: its name and, for a rounded one, its corner radius. */
  datatype Connector = Connector(name: string, radius: Option<real>)

  /** `getEdgeConnector`: rounded with the edge's border radius exactly when
      that radius is positive, the plain `normal` connector otherwise. */
  function GetEdgeConnector(s: WireEdgeStyles): (c: Connector)
    ensures c.radius.Some? <==> s.borderRadius > 0.0
    ensures c.radius.Some? ==> c.radius.value == s.borderRadius && c.name == "rounded"
    ensures c.radius.None? ==> c.name == "normal"
  {
    if s.borderRadius > 0.0 then Connector("rounded", Some(s.borderRadius))
    else Connector("normal", None)
  }

  /** `getVerticesFormat`: a copy of the vertices, coordinates only. */
  function GetVerticesFormat(vs: seq<Point>): (r: seq<Point>)
    ensures |r| == |vs|
    ensures forall i :: 0 <= i < |vs| ==> r[i].x == vs[i].x && r[i].y == vs[i].y
  {
    seq(|vs|, i requires 0 <= i < |vs| => Point(vs[i].x, vs[i].y))
  }

  // ---------------------------------------------------------------------
  // Node port and node label
  // ---------------------------------------------------------------------

  /** The circle drawn for a port. */
  datatype PortCircle = PortCircle(r: real, magnet: bool, stroke: string, fill: string, strokeWidth: real)

  /** A port group: where its ports sit and how they look. */
  datatype PortGroup = PortGroup(name: string, positionName: string, argX: string, argY: string, circle: PortCircle)

  /** One port and the group it belongs to. */
  datatype PortItem = PortItem(id: string, group: string)

  /** A port configuration; the empty object `{}` has no groups and no items. */
  datatype PortConfig = PortConfig(groups: seq<PortGroup>, items: seq<PortItem>)

  /** Every port item names a group the configuration declares. */
  predicate WellFormedPorts(p: PortConfig) {
    forall it :: it in p.items ==> exists g :: g in p.groups && g.name == it.group
  }

  /** `getNodePortConfiguration`: a single port `port1` in group `group1`,
      placed at 100% / 90% of the node, when the flag is set; `{}` otherwise. */
  function GetNodePortConfiguration(port: bool): (p: PortConfig)
    ensures !port <==> p.items == [] && p.groups == []
    ensures port ==> p.items == [PortItem("port1", "group1")] && |p.groups| == 1
    ensures port ==> p.groups[0].positionName == "absolute" && p.groups[0].argX == "100%" && p.groups[0].argY == "90%"
    ensures port ==> p.groups[0].circle.magnet
  {
    if port then
      PortConfig([PortGroup("group1", "absolute", "100%", "90%", PortCircle(6.0, true, "#31d0c6", "#fff", 2.0))],
                 [PortItem("port1", "group1")])
    else PortConfig([], [])
  }

  /** The port configuration never names a group it does not declare. */
  lemma PortConfigurationIsWellFormed(port: bool)
    ensures WellFormedPorts(GetNodePortConfiguration(port))
  {
    var p := GetNodePortConfiguration(port);
    if port {
      assert p.groups[0] in p.groups;
    }
  }

  /** A vertical reference: a percentage string or a fraction of the node. */
  datatype Ref = Percent(text: string) | Fraction(value: real)

  /** The label attributes of a node. */
  datatype NodeLabelConfig = NodeLabelConfig(
    text: string, fontSize: real, fontFamily: string, fill: string,
    refX: real, refY: Ref, refY2: Option<real>,
    textAnchor: string, textVerticalAnchor: string, visibility: string)

  /** Whether the label is placed under the node rather than inside it. */
  predicate BelowNode(c: NodeLabelConfig) {
    c.refY == Percent("100%") && c.refY2 == Some(4.0) && c.textVerticalAnchor == "top"
  }

  /** Whether the label is centred inside the node. */
  predicate Centred(c: NodeLabelConfig) {
    c.refY == Fraction(0.5) && c.refY2.None? && c.textVerticalAnchor == "middle"
  }

  /** `getNodeLabelConfiguration`: text and fonts come from the node; the
      label hangs 4 px under the node for position `bottom` and is centred
      for every other position. */
  function GetNodeLabelConfiguration(n: WireNodeData): (c: NodeLabelConfig)
    ensures n.nodeLabelStyles.labelPosition == "bottom" <==> BelowNode(c)
    ensures n.nodeLabelStyles.labelPosition != "bottom" <==> Centred(c)
    ensures c.text == n.labelText && c.fill == n.nodeLabelStyles.fontColor
    ensures c.fontSize == n.nodeLabelStyles.fontSize && c.fontFamily == n.nodeLabelStyles.fontFamily
    ensures c.visibility == n.nodeLabelStyles.visibility
    ensures c.refX == 0.5 && c.textAnchor == "middle"
  {
    var s := n.nodeLabelStyles;
    if s.labelPosition == "bottom" then
      NodeLabelConfig(n.labelText, s.fontSize, s.fontFamily, s.fontColor, 0.5, Percent("100%"), Some(4.0),
                      "middle", "top", s.visibility)
    else
      NodeLabelConfig(n.labelText, s.fontSize, s.fontFamily, s.fontColor, 0.5, Fraction(0.5), None,
                      "middle", "middle", s.visibility)
  }

  // ---------------------------------------------------------------------
  // Z-index
  // ---------------------------------------------------------------------

  /** A cell's `zIndex` property; `None` when the cell has none. */
  type ZIndex = Option<int>

  /** `sendToBack`: the z-index becomes 1 whatever it was. */
  function SendToBack(z: ZIndex): (r: ZIndex)
    ensures r == Some(1)
  {
    Some(1)
  }

  /** `moveUpOneLevel`: one level up, except that a missing or zero z-index
      (both falsy in the browser) stays as it is. */
  function MoveUpOneLevel(z: ZIndex): (r: ZIndex)
    ensures r == z <==> z.None? || z.value == 0
    ensures r != z ==> r == Some(z.value + 1)
  {
    if z.Some? && z.value != 0 then Some(z.value + 1) else z
  }

  /** `moveDownOneLevel`: one level down, but never below 1; a missing
      z-index stays missing. */
  function MoveDownOneLevel(z: ZIndex): (r: ZIndex)
    ensures r == z <==> z.None? || z.value <= 1
    ensures r != z ==> r == Some(z.value - 1)
  {
    if z.Some? && z.value > 1 then Some(z.value - 1) else z
  }

  /** Moving down keeps a z-index of at least 1 at least 1. */
  lemma MoveDownStaysAtLeastOne(z: int)
    requires z >= 1
    ensures MoveDownOneLevel(Some(z)).Some? && MoveDownOneLevel(Some(z)).value >= 1
  {
  }

  /** Moving down undoes moving up for every z-index from 1. */
  lemma MoveDownUndoesMoveUp(z: int)
    requires z >= 1
    ensures MoveDownOneLevel(MoveUpOneLevel(Some(z))) == Some(z)
  {
  }

  /** Moving up undoes moving down for every z-index above 1. */
  lemma MoveUpUndoesMoveDown(z: int)
    requires z > 1
    ensures MoveUpOneLevel(MoveDownOneLevel(Some(z))) == Some(z)
  {
  }

  /** The back is a fixed point of moving down. */
  lemma SendToBackIsBottom(z: ZIndex)
    ensures MoveDownOneLevel(SendToBack(z)) == SendToBack(z)
  {
  }

  /** `n` successive moves down: an index above 1 drops by `n`, but not
      below 1; an index of 1 or less, and an unset one, stays as it is. */
  function MoveDownTimes(z: ZIndex, n: nat): (r: ZIndex)
    ensures z.None? ==> r.None?
    ensures z.Some? && z.value <= 1 ==> r == z
    ensures z.Some? && z.value > 1 ==> r == Some(if z.value - n >= 1 then z.value - n else 1)
    decreases n
  {
    if n == 0 then z else MoveDownTimes(MoveDownOneLevel(z), n - 1)
  }

  /** Enough moves down reach exactly the back. */
  lemma {:induction false} RepeatedMoveDownReachesBack(z: int, n: nat)
    requires z >= 1 && n >= z - 1
    decreases n
    ensures MoveDownTimes(Some(z), n) == SendToBack(Some(z))
  {
    if n > 0 {
      RepeatedMoveDownReachesBack(MoveDownOneLevel(Some(z)).value, n - 1);
    }
  }

  /** A negative z-index climbs to 0 and then no further: 0 is falsy in the
      browser, so moving up from it does nothing. */
  lemma MoveUpStopsAtZero()
    ensures MoveUpOneLevel(Some(-1)) == Some(0)
    ensures MoveUpOneLevel(MoveUpOneLevel(Some(-1))) == Some(0)
  {
  }
}
