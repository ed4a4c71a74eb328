/**
 * How the label operations of an edge fit together: a label added is the
 * one read back at the end of the list, and nothing before it moves.
 */
module CellLaws {
  import opened Wrappers
  import opened Cells

  /** Reading back after `addLabel`: the new label sits right after the old
      ones, every old position reads as before, and every position past the
      new end reads as null. */
  lemma GetLabelAtAfterAddLabel(e: Edge, text: Option<string>, distance: real, pos: int)
    requires e.edgeLabels.Some?
    ensures var n := |e.edgeLabels.value|;
      GetLabelAt(AddLabel(e, text, distance), pos) ==
        if pos == n then Ok(Some(NewEdgeLabel(text, distance)))
        else if pos > n then Ok(None)
        else GetLabelAt(e, pos)
  {
    var n := |e.edgeLabels.value|;
    var ls := AddLabel(e, text, distance).edgeLabels.value;
    if 0 <= pos < n {
      assert ls[pos] == ls[..n][pos];
    }
  }

  /** Replacing a label is seen by `getLabelAt` at that position only. */
  lemma GetLabelAtAfterReplace(e: Edge, pos: nat, l: EdgeLabel, q: int)
    requires e.edgeLabels.Some? && pos < |e.edgeLabels.value|
    ensures GetLabelAt(ReplaceLabelAt(e, pos, l), q) == if q == pos then Ok(Some(l)) else GetLabelAt(e, q)
  {
  }

  /** Labels added one after the other are read back in the order they were
      added. */
  lemma LabelsComeBackInOrder(e: Edge, t1: Option<string>, d1: real, t2: Option<string>, d2: real)
    requires e.edgeLabels == Some([])
    ensures GetLabelAt(AddLabel(AddLabel(e, t1, d1), t2, d2), 0) == Ok(Some(NewEdgeLabel(t1, d1)))
    ensures GetLabelAt(AddLabel(AddLabel(e, t1, d1), t2, d2), 1) == Ok(Some(NewEdgeLabel(t2, d2)))
  {
    GetLabelAtAfterAddLabel(e, t1, d1, 0);
    GetLabelAtAfterAddLabel(AddLabel(e, t1, d1), t2, d2, 0);
    GetLabelAtAfterAddLabel(AddLabel(e, t1, d1), t2, d2, 1);
  }

  /** An edge `E1` from `n1` to `n2` labelled `cost`: its one label is half
      way along, there is nothing at position 1, and position -1 throws. */
  lemma LabelledEdgeScenario()
    ensures var e := NewEdgeWithLabel(Some("E1"), Some("n1"), Some("n2"), Some("cost"));
      && GetLabelAt(e, 0).Ok? && GetLabelAt(e, 0).value.Some?
      && GetLabelAt(e, 0).value.value.text == Some("cost")
      && GetLabelAt(e, 0).value.value.distance == 0.5
      && GetLabelAt(e, 1) == Ok(None)
      && GetLabelAt(e, -1) == Err(IndexOutOfBounds)
  {
  }

  /** A null label list reads as null everywhere and ignores `addLabel`. */
  lemma NullLabelListIsInert(e: Edge, text: Option<string>, distance: real, pos: int)
    requires e.edgeLabels.None?
    ensures AddLabel(e, text, distance) == e
    ensures GetLabelAt(e, pos) == Ok(None)
  {
  }
}
