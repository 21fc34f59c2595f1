/** The two stages together: what the graph drawn from an extracted
    analysis shows about the document it came from. */
module Pipeline {
  import opened Wrappers
  import opened Text
  import opened ElementTree
  import opened Model
  import opened Dedup
  import opened Extractor
  import opened Labels
  import opened GraphBuilder
  import opened GraphProperties

  /** A document without a logical model has an output vertex that reads
      "Output\n(0 columns)". */
  lemma NoLogicalModelZeroColumns(root: Element)
    requires Extractable(root) && Get(root, "id").Some?
    requires Find(root, "logicalModel").None?
    ensures OutputNode(Analyze(root)) == NodeDecl(Get(root, "id").value, OutputCaption(0))
    ensures Render(OutputCaption(0)) == "Output" + DotBreak + "(0 columns)"
  {
    assert NatToString(0) == "0";
  }

  /** A view gets a `_filter` vertex exactly when its filter element holds
      text that is not blank, and that vertex is labelled from the raw
      text. Its label is never empty: the analyzer's branch that would give
      it an empty label repeats the test that guards the whole filter
      branch, so it is dead, and the label built otherwise starts with
      "(Filters)". */
  lemma FilterVertexIffFilterText(v: Element)
    requires ViewReadable(v)
    ensures HasFilter(ViewDetailOf(v)) <==>
              Find(v, "filter").Some? && Find(v, "filter").value.text.Some? &&
              !IsBlank(Find(v, "filter").value.text.value)
    ensures HasFilter(ViewDetailOf(v)) ==>
              FilterCaption(ViewDetailOf(v).filter.value) == FilterCaption(Find(v, "filter").value.text.value) &&
              Render(FilterCaption(ViewDetailOf(v).filter.value)) != ""
  {
  }

  /** Every input edge of an extracted view starts at the input's name as
      extracted: stripping `#` again when drawing changes nothing. */
  lemma InputEdgesStartAtInputs(viewId: string, v: Element)
    requires ViewReadable(v)
    ensures forall i :: 0 <= i < |InputsOf(v)| ==>
              ViewEdges(viewId, ViewDetailOf(v))[|AnnotationEdges(viewId, ViewDetailOf(v))| + i].src == InputsOf(v)[i]
  {
    var d := ViewDetailOf(v);
    assert d.inputs == InputsOf(v);
    InputsAreStripped(v);
    StrippedInputsStartEdges(viewId, d);
  }

  /** The join label of an extracted view's input edges is empty exactly
      when the view is not a `JoinView` with two inputs; otherwise its
      first line names the join type. */
  lemma JoinLabelOfExtractedView(v: Element)
    requires ViewReadable(v) && JoinLabelDefined(ViewDetailOf(v))
    ensures JoinLabel(ViewDetailOf(v)) == "" <==>
              !(ViewKind(v) == "JoinView" && |InputsOf(v)| == 2)
    ensures ViewKind(v) == "JoinView" && |InputsOf(v)| == 2 ==>
              var typeLine := "Type: " + JoinTypeLabel(Get(v, "joinType").value);
              |typeLine| <= |JoinLabel(ViewDetailOf(v))| && JoinLabel(ViewDetailOf(v))[..|typeLine|] == typeLine
  {
    var d := ViewDetailOf(v);
    JoinDetailsShape(v);
    JoinLabelShape(d);
    if d.joinDetails != [] {
      JoinLabelStartsWithType(d);
    }
  }

  /** An ID belongs to a kept row exactly when it belongs to a row that
      is the first with its triple. */
  lemma KeptSourceIds(rows: seq<DataSource>, x: string)
    ensures x in SourceIdSet(DropDuplicates(rows)) <==>
            exists r :: r in rows && r.id == Some(x) && FirstWithKey(rows, KeyOf(r)) == Some(r)
  {
    if x in SourceIdSet(DropDuplicates(rows)) {
      var r :| r in DropDuplicates(rows) && r.id == Some(x);
      KeptIffFirst(rows, r);
    }
    if exists r :: r in rows && r.id == Some(x) && FirstWithKey(rows, KeyOf(r)) == Some(r) {
      var r :| r in rows && r.id == Some(x) && FirstWithKey(rows, KeyOf(r)) == Some(r);
      KeptIffFirst(rows, r);
    }
  }

  /** An ID gets a source vertex exactly when it belongs to a row that is
      the first of the document with its (Type, Name, Schema): the ID of a
      row dropped as a duplicate gets none, even when it differs from the
      kept row's ID. */
  lemma SourceVertexIds(root: Element, x: string)
    requires Extractable(root)
    ensures var rows := SourceRows(SourceElems(root));
            x in SourceIdSet(Analyze(root).sources) <==>
            exists r :: r in rows && r.id == Some(x) && FirstWithKey(rows, KeyOf(r)) == Some(r)
  {
    assert Analyze(root).sources == DropDuplicates(SourceRows(SourceElems(root)));
    KeptSourceIds(SourceRows(SourceElems(root)), x);
  }
}
