/** The extraction stage (`analyze_cv`, function.py:11-222): walks the
    calculation-view element tree and fills the general information, the
    deduplicated data-source table, the insertion-ordered view table and the
    final schema.

    Each part has a specification function over the element tree and a
    method that fills the part in a loop, as the analyzer does; each method
    is proved to produce exactly what its specification function describes,
    and the properties the analyzer promises are proved about those
    functions. */
module Extractor {
  import opened Wrappers
  import opened Text
  import opened ElementTree
  import opened Model
  import opened Dedup

  /** The sentinel for a missing metadata element or formula element. */
  const NotAvailable: string := "N/A"

  // =====================================================================
  // Section 1: general information
  // =====================================================================

  /** The general record: the root's attributes, and the metadata child's
      `changedAt`, which is "N/A" when there is no metadata child. */
  function GeneralOf(root: Element): (g: General)
    ensures Find(root, "metadata").None? ==> g.changedAt == Some(NotAvailable)
    ensures Find(root, "metadata").Some? ==> g.changedAt == Get(Find(root, "metadata").value, "changedAt")
    ensures g.id == Get(root, "id") && g.dataCategory == Get(root, "dataCategory")
    ensures g.visibility == Get(root, "visibility")
    ensures g.scenarioType == Get(root, "calculationScenarioType")
    ensures g.outputViewType == Get(root, "outputViewType")
  {
    var metadata := Find(root, "metadata");
    General(
      Get(root, "id"),
      Get(root, "dataCategory"),
      Get(root, "visibility"),
      Get(root, "calculationScenarioType"),
      Get(root, "outputViewType"),
      if metadata.Some? then Get(metadata.value, "changedAt") else Some(NotAvailable))
  }

  // =====================================================================
  // Section 2: data sources
  // =====================================================================

  /** The `DataSource` children of the root's `dataSources` element. */
  function SourceElems(root: Element): seq<Element>
  {
    match Find(root, "dataSources")
    case None => []
    case Some(container) => FindAll(container, "DataSource")
  }

  /** A source the analyzer can read without crashing: a referenced
      calculation view whose `resourceUri` element is present has text. */
  predicate SourceReadable(s: Element)
  {
    Get(s, "type") == Some("CALCULATION_VIEW") && Find(s, "resourceUri").Some? ==>
      Find(s, "resourceUri").value.text.Some?
  }

  /** The name of a referenced view: the last `/`-segment of its URI. */
  function UriName(uri: string): string
  {
    Last(Split(uri, "/"))
  }

  /** The schema of a referenced view: the segments between the first and
      the last, joined by `/`. */
  function UriSchema(uri: string): string
  {
    Join("/", Inner(Split(uri, "/")))
  }

  /** Name and schema of a source: from the `columnObject` of a table, from
      the `resourceUri` of a referenced view, and "" when that element is
      missing or the type is neither. */
  function NameAndSchema(s: Element): (ns: (Option<string>, Option<string>))
    requires SourceReadable(s)
    ensures Get(s, "type") == Some("DATA_BASE_TABLE") && Find(s, "columnObject").Some? ==>
              var co := Find(s, "columnObject").value;
              ns == (Get(co, "columnObjectName"), Get(co, "schemaName"))
    ensures Get(s, "type") == Some("CALCULATION_VIEW") && Find(s, "resourceUri").Some? ==>
              var uri := Find(s, "resourceUri").value.text.value;
              ns == (Some(UriName(uri)), Some(UriSchema(uri)))
    ensures (Get(s, "type") == Some("DATA_BASE_TABLE") && Find(s, "columnObject").None?) ||
            (Get(s, "type") == Some("CALCULATION_VIEW") && Find(s, "resourceUri").None?) ||
            (Get(s, "type") != Some("DATA_BASE_TABLE") && Get(s, "type") != Some("CALCULATION_VIEW")) ==>
              ns == (Some(""), Some(""))
  {
    var kind := Get(s, "type");
    if kind == Some("DATA_BASE_TABLE") then
      match Find(s, "columnObject")
      case None => (Some(""), Some(""))
      case Some(co) => (Get(co, "columnObjectName"), Get(co, "schemaName"))
    else if kind == Some("CALCULATION_VIEW") then
      match Find(s, "resourceUri")
      case None => (Some(""), Some(""))
      case Some(u) => (Some(UriName(u.text.value)), Some(UriSchema(u.text.value)))
    else (Some(""), Some(""))
  }

  /** The table row of one source element. */
  function SourceOf(s: Element): DataSource
    requires SourceReadable(s)
  {
    var ns := NameAndSchema(s);
    DataSource(Get(s, "id"), ns.0, Get(s, "type"), ns.1)
  }

  /** The rows of the source elements, one per element, in document order
      (before deduplication). */
  function SourceRows(es: seq<Element>): (rows: seq<DataSource>)
    requires forall s :: s in es ==> SourceReadable(s)
    ensures |rows| == |es|
  {
    if es == [] then [] else SourceRows(es[..|es| - 1]) + [SourceOf(Last(es))]
  }

  lemma SourceRowsSnoc(es: seq<Element>, i: nat)
    requires forall s :: s in es ==> SourceReadable(s)
    requires i < |es|
    ensures SourceRows(es[..i + 1]) == SourceRows(es[..i]) + [SourceOf(es[i])]
  {
    assert es[..i + 1][..i] == es[..i];
    assert Last(es[..i + 1]) == es[i];
  }

  /** The loop of function.py:51-79 followed by the deduplication of
      function.py:81-82. */
  method ExtractDataSources(root: Element) returns (table: seq<DataSource>)
    requires forall s :: s in SourceElems(root) ==> SourceReadable(s)
    ensures table == DropDuplicates(SourceRows(SourceElems(root)))
  {
    var rows: seq<DataSource> := [];
    var container := Find(root, "dataSources");
    if container.Some? {
      var sources := FindAll(container.value, "DataSource");
      assert sources == SourceElems(root);
      for i := 0 to |sources|
        invariant rows == SourceRows(sources[..i])
      {
        var source := sources[i];
        var sourceId := Get(source, "id");
        var sourceType := Get(source, "type");
        var sourceName: Option<string> := Some("");
        var sourceSchema: Option<string> := Some("");
        if sourceType == Some("DATA_BASE_TABLE") {
          var columnObject := Find(source, "columnObject");
          if columnObject.Some? {
            sourceName := Get(columnObject.value, "columnObjectName");
            sourceSchema := Get(columnObject.value, "schemaName");
          }
        } else if sourceType == Some("CALCULATION_VIEW") {
          var resourceUri := Find(source, "resourceUri");
          if resourceUri.Some? {
            assert source in sources;
            var segments := Split(resourceUri.value.text.value, "/");
            sourceName := Some(Last(segments));
            sourceSchema := Some(Join("/", Inner(segments)));
          }
        }
        assert DataSource(sourceId, sourceName, sourceType, sourceSchema) == SourceOf(source);
        SourceRowsSnoc(sources, i);
        rows := rows + [DataSource(sourceId, sourceName, sourceType, sourceSchema)];
      }
      assert sources[..|sources|] == sources;
    }
    table := DropDuplicates(rows);
  }

  /** The name of a referenced view is the text after its URI's last `/`:
      a suffix of the URI that holds no `/`. */
  lemma UriNameIsTail(uri: string)
    ensures '/' !in UriName(uri)
    ensures |UriName(uri)| <= |uri| && UriName(uri) == uri[|uri| - |UriName(uri)|..]
    ensures |UriName(uri)| < |uri| ==> uri[|uri| - |UriName(uri)| - 1] == '/'
  {
    AfterLastIsTail(uri, '/');
  }

  /** A URI that starts with `/` and has at least three segments is rebuilt
      exactly as `"/" + schema + "/" + name`. */
  lemma UriRoundTrip(uri: string)
    requires uri != [] && uri[0] == '/'
    requires |Split(uri, "/")| >= 3
    ensures "/" + UriSchema(uri) + "/" + UriName(uri) == uri
  {
    assert uri[..1] == "/";
    assert Split(uri, "/")[0] == "";
    JoinSplit(uri, "/");
    JoinAroundInner("/", Split(uri, "/"));
  }

  // =====================================================================
  // Section 3: calculation views
  // =====================================================================

  /** The `calculationView` children of the root's `calculationViews`. */
  function ViewElems(root: Element): seq<Element>
  {
    match Find(root, "calculationViews")
    case None => []
    case Some(container) => FindAll(container, "calculationView")
  }

  /** A view the analyzer can read without crashing: it has an `xsi:type`
      and each of its `input` children has a `node` attribute. */
  predicate ViewReadable(v: Element)
  {
    Get(v, "xsi:type").Some? &&
    forall x :: x in FindAll(v, "input") ==> Get(x, "node").Some?
  }

  /** The view's type: the text after the last `:` of its `xsi:type`. */
  function ViewKind(v: Element): string
    requires Get(v, "xsi:type").Some?
  {
    AfterLast(Get(v, "xsi:type").value, ':')
  }

  /** The `node` references of `input` elements, with `#` stripped from
      both ends. */
  function NodeRefs(inputs: seq<Element>): (refs: seq<string>)
    requires forall x :: x in inputs ==> Get(x, "node").Some?
    ensures |refs| == |inputs|
  {
    seq(|inputs|, i requires 0 <= i < |inputs| => Strip(Get(inputs[i], "node").value, '#'))
  }

  function InputsOf(v: Element): seq<string>
    requires ViewReadable(v)
  {
    NodeRefs(FindAll(v, "input"))
  }

  /** The `name` attributes of a list of elements. */
  function Names(es: seq<Element>): (names: seq<Option<string>>)
    ensures |names| == |es|
  {
    seq(|es|, i requires 0 <= i < |es| => Get(es[i], "name"))
  }

  /** The filter of a view: the raw text of its first `filter` child, or
      None when that element or its text is missing or only whitespace. */
  function FilterOf(v: Element): (f: Option<string>)
    ensures f.None? <==>
              Find(v, "filter").None? || Find(v, "filter").value.text.None? ||
              IsBlank(Find(v, "filter").value.text.value)
    ensures f.Some? ==> f == Find(v, "filter").value.text && f.value != ""
  {
    match Find(v, "filter")
    case None => None
    case Some(e) =>
      if e.text.Some? && e.text.value != "" && !IsBlank(e.text.value) then e.text else None
  }

  /** The join details of a view: one record for a `JoinView` with exactly
      two inputs, none otherwise. */
  function JoinDetailsOf(v: Element): seq<JoinDetail>
    requires ViewReadable(v)
  {
    var inputNodes := FindAll(v, "input");
    if ViewKind(v) == "JoinView" && |inputNodes| == 2 then
      assert inputNodes[0] in inputNodes && inputNodes[1] in inputNodes;
      var first := Find(v, "joinAttribute");
      [JoinDetail(
         Get(v, "joinType"),
         Strip(Get(inputNodes[0], "node").value, '#'),
         Strip(Get(inputNodes[1], "node").value, '#'),
         if first.Some? then Get(first.value, "name") else Some(""),
         Names(FindAll(v, "joinAttribute")))]
    else []
  }

  /** One calculated attribute: its id, datatype and formula text, the
      formula being "N/A" when the `formula` element is absent. */
  function CalcAttrOf(c: Element): (a: CalcAttr)
    ensures Find(c, "formula").None? ==> a.formula == Some(NotAvailable)
    ensures Find(c, "formula").Some? ==> a.formula == Find(c, "formula").value.text
  {
    var formula := Find(c, "formula");
    CalcAttr(Get(c, "id"), Get(c, "datatype"),
             if formula.Some? then formula.value.text else Some(NotAvailable))
  }

  /** The `calculatedViewAttribute` children of the view's
      `calculatedViewAttributes` element. */
  function CalcAttrElems(v: Element): seq<Element>
  {
    match Find(v, "calculatedViewAttributes")
    case None => []
    case Some(container) => FindAll(container, "calculatedViewAttribute")
  }

  function CalcAttrsOf(es: seq<Element>): (attrs: seq<CalcAttr>)
    ensures |attrs| == |es|
  {
    if es == [] then [] else CalcAttrsOf(es[..|es| - 1]) + [CalcAttrOf(Last(es))]
  }

  lemma CalcAttrsSnoc(es: seq<Element>, i: nat)
    requires i < |es|
    ensures CalcAttrsOf(es[..i + 1]) == CalcAttrsOf(es[..i]) + [CalcAttrOf(es[i])]
  {
    assert es[..i + 1][..i] == es[..i];
    assert Last(es[..i + 1]) == es[i];
  }

  /** The detail record of one view. */
  function ViewDetailOf(v: Element): ViewDetail
    requires ViewReadable(v)
  {
    ViewDetail(
      ViewKind(v),
      InputsOf(v),
      FilterOf(v),
      Names(FindAll(v, "Calculation:joinAttribute")),
      JoinDetailsOf(v),
      CalcAttrsOf(CalcAttrElems(v)))
  }

  /** The view table after assigning every view element in document order:
      `calc_views[view_id] = detail`. */
  function ViewTable(es: seq<Element>): seq<ViewEntry>
    requires forall v :: v in es ==> ViewReadable(v)
  {
    if es == [] then []
    else Put(ViewTable(es[..|es| - 1]), Get(Last(es), "id"), ViewDetailOf(Last(es)))
  }

  lemma ViewTableSnoc(es: seq<Element>, i: nat)
    requires forall v :: v in es ==> ViewReadable(v)
    requires i < |es|
    ensures ViewTable(es[..i + 1]) == Put(ViewTable(es[..i]), Get(es[i], "id"), ViewDetailOf(es[i]))
  {
    assert es[..i + 1][..i] == es[..i];
    assert Last(es[..i + 1]) == es[i];
  }

  /** The loop of function.py:141-153. */
  method ExtractCalcAttrs(view: Element) returns (attrs: seq<CalcAttr>)
    ensures attrs == CalcAttrsOf(CalcAttrElems(view))
  {
    attrs := [];
    var container := Find(view, "calculatedViewAttributes");
    if container.Some? {
      var elems := FindAll(container.value, "calculatedViewAttribute");
      for i := 0 to |elems|
        invariant attrs == CalcAttrsOf(elems[..i])
      {
        var calcAttr := elems[i];
        var formulaElement := Find(calcAttr, "formula");
        var formula := if formulaElement.Some? then formulaElement.value.text else Some(NotAvailable);
        assert CalcAttr(Get(calcAttr, "id"), Get(calcAttr, "datatype"), formula) == CalcAttrOf(calcAttr);
        CalcAttrsSnoc(elems, i);
        attrs := attrs + [CalcAttr(Get(calcAttr, "id"), Get(calcAttr, "datatype"), formula)];
      }
      assert elems[..|elems|] == elems;
    }
  }

  /** function.py:110-135: the join record of a `JoinView` with exactly
      two inputs. */
  method ExtractJoinDetails(view: Element, viewType: string) returns (joinDetails: seq<JoinDetail>)
    requires ViewReadable(view) && viewType == ViewKind(view)
    ensures joinDetails == JoinDetailsOf(view)
  {
    joinDetails := [];
    if viewType == "JoinView" {
      var joinType := Get(view, "joinType");
      var inputNodes := FindAll(view, "input");
      if |inputNodes| == 2 {
        assert inputNodes[0] in inputNodes && inputNodes[1] in inputNodes;
        var leftTable := Strip(Get(inputNodes[0], "node").value, '#');
        var rightTable := Strip(Get(inputNodes[1], "node").value, '#');
        var joinAttributeElement := Find(view, "joinAttribute");
        var joinAttribute :=
          if joinAttributeElement.Some? then Get(joinAttributeElement.value, "name") else Some("");
        var joinColumns := Names(FindAll(view, "joinAttribute"));
        var record := JoinDetail(joinType, leftTable, rightTable, joinAttribute, joinColumns);
        assert JoinDetailsOf(view) == [record];
        joinDetails := joinDetails + [record];
        assert joinDetails == [record];
      }
    }
  }

  /** The body of the loop of function.py:89-162 for one view element. */
  method ExtractView(view: Element) returns (viewId: Option<string>, detail: ViewDetail)
    requires ViewReadable(view)
    ensures viewId == Get(view, "id") && detail == ViewDetailOf(view)
  {
    viewId := Get(view, "id");
    var viewType := AfterLast(Get(view, "xsi:type").value, ':');
    var inputs := NodeRefs(FindAll(view, "input"));

    var filters := Find(view, "filter");
    var filterExpression: Option<string> := None;
    if filters.Some? && filters.value.text.Some? && filters.value.text.value != ""
       && !IsBlank(filters.value.text.value) {
      filterExpression := filters.value.text;
    }

    var joinAttributes := Names(FindAll(view, "Calculation:joinAttribute"));
    var joinDetails := ExtractJoinDetails(view, viewType);
    var calculatedAttributes := ExtractCalcAttrs(view);
    detail := ViewDetail(viewType, inputs, filterExpression, joinAttributes, joinDetails, calculatedAttributes);
  }

  /** The loop of function.py:86-162. */
  method ExtractCalcViews(root: Element) returns (views: seq<ViewEntry>)
    requires forall v :: v in ViewElems(root) ==> ViewReadable(v)
    ensures views == ViewTable(ViewElems(root))
  {
    views := [];
    var container := Find(root, "calculationViews");
    if container.Some? {
      var elems := FindAll(container.value, "calculationView");
      assert elems == ViewElems(root);
      for i := 0 to |elems|
        invariant views == ViewTable(elems[..i])
      {
        var view := elems[i];
        assert view in elems;
        ViewTableSnoc(elems, i);
        var viewId, detail := ExtractView(view);
        views := Put(views, viewId, detail);
      }
      assert elems[..|elems|] == elems;
    }
  }

  // ---------------------------------------------------------------------
  // properties of the view records
  // ---------------------------------------------------------------------

  /** The view type is the text after the last `:` of `xsi:type`: a suffix
      of it, holding no `:`, and preceded by `:` unless it is all of it. */
  lemma ViewKindIsLocalName(v: Element)
    requires Get(v, "xsi:type").Some?
    ensures var t := Get(v, "xsi:type").value;
            var k := ViewKind(v);
            ':' !in k && |k| <= |t| && k == t[|t| - |k|..] &&
            (|k| < |t| ==> t[|t| - |k| - 1] == ':')
  {
    AfterLastIsTail(Get(v, "xsi:type").value, ':');
  }

  /** Every input reference is already stripped of `#`: it neither starts
      nor ends with `#`, so stripping it again changes nothing. */
  lemma InputsAreStripped(v: Element)
    requires ViewReadable(v)
    ensures forall x :: x in InputsOf(v) ==>
              (x == [] || (x[0] != '#' && Last(x) != '#')) && Strip(x, '#') == x
  {
    var ins := FindAll(v, "input");
    forall x | x in InputsOf(v)
      ensures (x == [] || (x[0] != '#' && Last(x) != '#')) && Strip(x, '#') == x
    {
      var i :| 0 <= i < |ins| && InputsOf(v)[i] == x;
      assert ins[i] in ins;
      var raw := Get(ins[i], "node").value;
      StripEnds(raw, '#');
      StripIdempotent(raw, '#');
    }
  }

  /** A view has a join record exactly when it is a `JoinView` with exactly
      two inputs, and then exactly one. That record joins the first input
      (left) with the second (right), lists every unqualified
      `joinAttribute` name in document order, and its primary join
      attribute is the first of those names, or "" when there is none. */
  lemma JoinDetailsShape(v: Element)
    requires ViewReadable(v)
    ensures |JoinDetailsOf(v)| <= 1
    ensures JoinDetailsOf(v) != [] <==> ViewKind(v) == "JoinView" && |InputsOf(v)| == 2
    ensures JoinDetailsOf(v) != [] ==>
              var d := JoinDetailsOf(v)[0];
              d.left == InputsOf(v)[0] && d.right == InputsOf(v)[1] &&
              d.joinType == Get(v, "joinType") &&
              d.joinColumns == Names(FindAll(v, "joinAttribute")) &&
              d.joinAttribute == (if d.joinColumns == [] then Some("") else d.joinColumns[0])
  {
    FindIsFirstOfFindAll(v, "joinAttribute");
  }

  // ---------------------------------------------------------------------
  // properties of the view table
  // ---------------------------------------------------------------------

  /** The ids of the view elements, in document order. */
  function ViewIds(es: seq<Element>): (ids: seq<Option<string>>)
    ensures |ids| == |es|
    ensures forall i :: 0 <= i < |es| ==> ids[i] == Get(es[i], "id")
  {
    seq(|es|, i requires 0 <= i < |es| => Get(es[i], "id"))
  }

  /** The detail of the last view element with the given id. */
  function LastDetailWithId(es: seq<Element>, k: Option<string>): Option<ViewDetail>
    requires forall v :: v in es ==> ViewReadable(v)
  {
    if es == [] then None
    else if Get(Last(es), "id") == k then Some(ViewDetailOf(Last(es)))
    else LastDetailWithId(es[..|es| - 1], k)
  }

  /** The table holds each id of the document once, and an id that occurs
      on several views holds the detail of the last of them. */
  lemma {:induction false} ViewTableContents(es: seq<Element>)
    requires forall v :: v in es ==> ViewReadable(v)
    ensures DistinctKeys(ViewTable(es))
    ensures forall k :: k in Keys(ViewTable(es)) <==> k in ViewIds(es)
    ensures forall k :: Lookup(ViewTable(es), k) == LastDetailWithId(es, k)
  {
    if es != [] {
      var front := es[..|es| - 1];
      var v := Last(es);
      ViewTableContents(front);
      var t := ViewTable(front);
      PutKeys(t, Get(v, "id"), ViewDetailOf(v));
      PutKeepsKeysDistinct(t, Get(v, "id"), ViewDetailOf(v));
      ViewIdsStep(es);
      forall k ensures Lookup(ViewTable(es), k) == LastDetailWithId(es, k) {
        PutLookup(t, Get(v, "id"), ViewDetailOf(v), k);
      }
    }
  }

  /** The table after one more view element: that element's assignment. */
  lemma ViewTableStep(es: seq<Element>)
    requires forall v :: v in es ==> ViewReadable(v)
    requires es != []
    ensures ViewTable(es) == Put(ViewTable(es[..|es| - 1]), Get(Last(es), "id"), ViewDetailOf(Last(es)))
    ensures ViewIds(es) == ViewIds(es[..|es| - 1]) + [Get(Last(es), "id")]
  {
    ViewIdsStep(es);
  }

  lemma ViewIdsStep(es: seq<Element>)
    requires es != []
    ensures ViewIds(es) == ViewIds(es[..|es| - 1]) + [Get(Last(es), "id")]
  {
    var front := es[..|es| - 1];
    var ids := ViewIds(front) + [Get(Last(es), "id")];
    forall i | 0 <= i < |es| ensures ViewIds(es)[i] == ids[i] {
      if i < |front| {
        assert es[i] == front[i];
      }
    }
  }

  /** No two view elements share an id. */
  predicate DistinctViewIds(es: seq<Element>)
  {
    forall i, j :: 0 <= i < j < |es| ==> Get(es[i], "id") != Get(es[j], "id")
  }

  /** When no id repeats, the last element's id is not among the others',
      and no id repeats among them. */
  lemma DistinctViewIdsFront(es: seq<Element>)
    requires es != []
    requires DistinctViewIds(es)
    ensures Get(Last(es), "id") !in ViewIds(es[..|es| - 1])
    ensures DistinctViewIds(es[..|es| - 1])
  {
    var front := es[..|es| - 1];
    forall i | 0 <= i < |front| ensures ViewIds(front)[i] != Get(Last(es), "id") {
      assert front[i] == es[i];
    }
  }

  /** When no id repeats, the table's order is document order. */
  lemma {:induction false} ViewTableInDocumentOrder(es: seq<Element>)
    requires forall v :: v in es ==> ViewReadable(v)
    requires DistinctViewIds(es)
    ensures Keys(ViewTable(es)) == ViewIds(es)
  {
    if es != [] {
      var front := es[..|es| - 1];
      ViewTableStep(es);
      DistinctViewIdsFront(es);
      ViewTableInDocumentOrder(front);
      PutKeys(ViewTable(front), Get(Last(es), "id"), ViewDetailOf(Last(es)));
    }
  }

  /** A view whose id is new is the last entry of the table, the one the
      graph builder connects to the output. */
  lemma ViewTableNewIdIsLast(es: seq<Element>)
    requires forall v :: v in es ==> ViewReadable(v)
    requires es != [] && Get(Last(es), "id") !in ViewIds(es[..|es| - 1])
    ensures ViewTable(es) != [] && Last(ViewTable(es)) == ViewEntry(Get(Last(es), "id"), ViewDetailOf(Last(es)))
  {
    var front := es[..|es| - 1];
    ViewTableStep(es);
    ViewTableContents(front);
    PutNewKeyAppends(ViewTable(front), Get(Last(es), "id"), ViewDetailOf(Last(es)));
  }

  // =====================================================================
  // Section 4: the logical model (final schema)
  // =====================================================================

  /** The `attribute` children of the logical model's `attributes`. */
  function AttributeElemsOf(logicalModel: Element): seq<Element>
  {
    match Find(logicalModel, "attributes")
    case None => []
    case Some(container) => FindAll(container, "attribute")
  }

  /** The `measure` children of the logical model's `baseMeasures`. */
  function MeasureElemsOf(logicalModel: Element): seq<Element>
  {
    match Find(logicalModel, "baseMeasures")
    case None => []
    case Some(container) => FindAll(container, "measure")
  }

  /** The `defaultDescription` of the `descriptions` child, "" when either
      is absent. */
  function DescriptionOf(e: Element): (d: string)
    ensures Find(e, "descriptions").None? ==> d == ""
    ensures Find(e, "descriptions").Some? && "defaultDescription" !in Find(e, "descriptions").value.attrib ==> d == ""
    ensures Find(e, "descriptions").Some? && "defaultDescription" in Find(e, "descriptions").value.attrib ==>
              d == Find(e, "descriptions").value.attrib["defaultDescription"]
  {
    match Find(e, "descriptions")
    case None => ""
    case Some(desc) => GetOr(desc, "defaultDescription", "")
  }

  function Dimensions(es: seq<Element>): (ds: seq<Dimension>)
    ensures |ds| == |es|
  {
    if es == [] then [] else Dimensions(es[..|es| - 1]) + [Dimension(Get(Last(es), "id"), DescriptionOf(Last(es)))]
  }

  function Measures(es: seq<Element>): (ms: seq<Measure>)
    ensures |ms| == |es|
  {
    if es == [] then []
    else Measures(es[..|es| - 1]) +
         [Measure(Get(Last(es), "id"), Get(Last(es), "aggregationType"), DescriptionOf(Last(es)))]
  }

  lemma DimensionsSnoc(es: seq<Element>, i: nat)
    requires i < |es|
    ensures Dimensions(es[..i + 1]) == Dimensions(es[..i]) + [Dimension(Get(es[i], "id"), DescriptionOf(es[i]))]
  {
    assert es[..i + 1][..i] == es[..i];
    assert Last(es[..i + 1]) == es[i];
  }

  lemma MeasuresSnoc(es: seq<Element>, i: nat)
    requires i < |es|
    ensures Measures(es[..i + 1]) ==
            Measures(es[..i]) + [Measure(Get(es[i], "id"), Get(es[i], "aggregationType"), DescriptionOf(es[i]))]
  {
    assert es[..i + 1][..i] == es[..i];
    assert Last(es[..i + 1]) == es[i];
  }

  /** The final schema: the dimensions and measures of the root's
      `logicalModel`, both empty when there is none. */
  function FinalSchemaOf(root: Element): (schema: (seq<Dimension>, seq<Measure>))
    ensures Find(root, "logicalModel").None? ==> schema == ([], [])
  {
    match Find(root, "logicalModel")
    case None => ([], [])
    case Some(lm) => (Dimensions(AttributeElemsOf(lm)), Measures(MeasureElemsOf(lm)))
  }

  /** The loop of function.py:171-188. */
  method ExtractAttributes(logicalModel: Element) returns (attributes: seq<Dimension>)
    ensures attributes == Dimensions(AttributeElemsOf(logicalModel))
  {
    attributes := [];
    var attributesElement := Find(logicalModel, "attributes");
    if attributesElement.Some? {
      var elems := FindAll(attributesElement.value, "attribute");
      for i := 0 to |elems|
        invariant attributes == Dimensions(elems[..i])
      {
        var attr := elems[i];
        var descriptionElement := Find(attr, "descriptions");
        var description :=
          if descriptionElement.Some? then GetOr(descriptionElement.value, "defaultDescription", "") else "";
        assert description == DescriptionOf(attr);
        DimensionsSnoc(elems, i);
        attributes := attributes + [Dimension(Get(attr, "id"), description)];
      }
      assert elems[..|elems|] == elems;
    }
  }

  /** The loop of function.py:190-209. */
  method ExtractMeasures(logicalModel: Element) returns (measures: seq<Measure>)
    ensures measures == Measures(MeasureElemsOf(logicalModel))
  {
    measures := [];
    var measuresElement := Find(logicalModel, "baseMeasures");
    if measuresElement.Some? {
      var elems := FindAll(measuresElement.value, "measure");
      for i := 0 to |elems|
        invariant measures == Measures(elems[..i])
      {
        var measure := elems[i];
        var descriptionElement := Find(measure, "descriptions");
        var description :=
          if descriptionElement.Some? then GetOr(descriptionElement.value, "defaultDescription", "") else "";
        assert description == DescriptionOf(measure);
        MeasuresSnoc(elems, i);
        measures := measures + [Measure(Get(measure, "id"), Get(measure, "aggregationType"), description)];
      }
      assert elems[..|elems|] == elems;
    }
  }

  /** function.py:166-209. */
  method ExtractFinalSchema(root: Element) returns (attributes: seq<Dimension>, measures: seq<Measure>)
    ensures (attributes, measures) == FinalSchemaOf(root)
  {
    attributes, measures := [], [];
    var logicalModel := Find(root, "logicalModel");
    if logicalModel.Some? {
      attributes := ExtractAttributes(logicalModel.value);
      measures := ExtractMeasures(logicalModel.value);
    }
  }

  // =====================================================================
  // The whole analysis
  // =====================================================================

  /** A document the analyzer gets through without crashing. */
  predicate Extractable(root: Element)
  {
    (forall s :: s in SourceElems(root) ==> SourceReadable(s)) &&
    (forall v :: v in ViewElems(root) ==> ViewReadable(v))
  }

  /** The record `analyze_cv` returns for a document. */
  function Analyze(root: Element): Analysis
    requires Extractable(root)
  {
    Analysis(
      GeneralOf(root),
      DropDuplicates(SourceRows(SourceElems(root))),
      ViewTable(ViewElems(root)),
      FinalSchemaOf(root).0,
      FinalSchemaOf(root).1)
  }

  /** `analyze_cv` on an already parsed document. */
  method AnalyzeCv(root: Element) returns (analysis: Analysis)
    requires Extractable(root)
    ensures analysis == Analyze(root)
  {
    var general := GeneralOf(root);
    var sources := ExtractDataSources(root);
    var views := ExtractCalcViews(root);
    var attributes, measures := ExtractFinalSchema(root);
    analysis := Analysis(general, sources, views, attributes, measures);
  }
}
