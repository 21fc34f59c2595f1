/** What the graph of an analysis looks like: which caption a base vertex
    gets, the path a view's inputs flow along, the edge into the output
    vertex, and exactly when every label of the graph can be built. */
module GraphProperties {
  import opened Wrappers
  import opened Text
  import opened Model
  import opened Labels
  import opened GraphBuilder

  // ---------------------------------------------------------------------
  // base vertices
  // ---------------------------------------------------------------------

  /** A declared base vertex is labelled from the first source row with its
      ID when there is one (a source wins over a view with the same id),
      and from its view entry otherwise; the fallback label of an id that
      is neither is never used. */
  lemma BaseCaptionOfDeclaredId(a: Analysis, id: string)
    requires id in AllIds(a)
    ensures id in SourceIdSet(a.sources) ==>
              BaseCaption(a, id) == SourceCaption(SourceWithId(a.sources, id).value)
    ensures id !in SourceIdSet(a.sources) ==>
              Lookup(a.views, Some(id)).Some? &&
              BaseCaption(a, id) == ViewCaption(id, Lookup(a.views, Some(id)).value)
    ensures !BaseCaption(a, id).IdCaption?
  {
    if id !in SourceIdSet(a.sources) {
      assert id in ViewIdSet(a.views);
      var e :| e in a.views && e.id == Some(id);
      var i :| 0 <= i < |a.views| && a.views[i] == e;
      assert Keys(a.views)[i] == Some(id);
    }
  }

  /** In a view table with distinct ids (as the extracted one always is),
      the vertex of a view id no source row carries is labelled with the
      detail of the view entry with that id. */
  lemma ViewCaptionIsEntryDetail(a: Analysis, i: nat)
    requires i < |a.views| && DistinctKeys(a.views) && a.views[i].id.Some?
    requires a.views[i].id.value !in SourceIdSet(a.sources)
    ensures BaseCaption(a, a.views[i].id.value) == ViewCaption(a.views[i].id.value, a.views[i].detail)
  {
    LookupFindsEntry(a.views, i);
  }

  // ---------------------------------------------------------------------
  // the annotation chain of one view
  // ---------------------------------------------------------------------

  /** The vertices a view's inputs flow through: its filter, then its
      calculated attributes, each only when present, then the view. */
  function ChainPath(viewId: string, d: ViewDetail): seq<string>
  {
    (if HasFilter(d) then [FilterId(viewId)] else []) +
    (if HasCalc(d) then [CalcId(viewId)] else []) +
    [viewId]
  }

  /** The path starts at the input target and ends at the view, visits
      no vertex twice, and the output edge leaves its last step before the
      view. So with both annotations the inputs arrive at `_filter` while
      the output edge leaves `_calc`. */
  lemma ChainPathShape(viewId: string, d: ViewDetail)
    ensures var path := ChainPath(viewId, d);
            path[0] == InputTarget(viewId, d) && Last(path) == viewId &&
            (forall i, j :: 0 <= i < j < |path| ==> path[i] != path[j]) &&
            OutputSource(viewId, d) == (if |path| >= 2 then path[|path| - 2] else viewId)
  {
    var path := ChainPath(viewId, d);
    forall i, j | 0 <= i < j < |path| ensures path[i] != path[j] {
      assert |path[i]| != |path[j]|;
    }
  }

  /** The annotation edges of a view are its path's steps, one unlabelled
      edge per step, and its annotation vertices are the path without the
      view. */
  lemma AnnotationChainIsPath(viewId: string, d: ViewDetail)
    ensures var path := ChainPath(viewId, d);
            |AnnotationEdges(viewId, d)| == |path| - 1 &&
            (forall i :: 0 <= i < |path| - 1 ==> EdgeDecl(path[i], path[i + 1], None) in AnnotationEdges(viewId, d)) &&
            |AnnotationNodes(viewId, d)| == |path| - 1 &&
            (forall n :: n in AnnotationNodes(viewId, d) ==> n.id in path[..|path| - 1])
  {
  }

  /** The inputs arrive where the output edge leaves exactly when the view
      does not have both annotations. */
  lemma OutputSourceIsInputTarget(viewId: string, d: ViewDetail)
    ensures OutputSource(viewId, d) == InputTarget(viewId, d) <==> !(HasCalc(d) && HasFilter(d))
  {
    if HasCalc(d) && HasFilter(d) {
      assert |CalcId(viewId)| != |FilterId(viewId)|;
    }
  }

  /** The input edges, one per input and in input order. */
  lemma {:induction false} InputEdgesInOrder(viewId: string, d: ViewDetail, inputs: seq<string>)
    ensures forall i :: 0 <= i < |inputs| ==> InputEdges(viewId, d, inputs)[i] == InputEdge(viewId, d, inputs[i])
    decreases |inputs|
  {
    if inputs != [] {
      var front := inputs[..|inputs| - 1];
      InputEdgesInOrder(viewId, d, front);
      forall i | 0 <= i < |inputs| - 1 ensures InputEdges(viewId, d, inputs)[i] == InputEdge(viewId, d, inputs[i]) {
        assert front[i] == inputs[i];
      }
    }
  }

  /** A view contributes its annotation edges, then, for its i-th input,
      the edge from the input with its `#` stripped to the start of its
      path, labelled with the view's join caption: |inputs| + [has calc]
      + [has filter] edges in all. */
  lemma EveryInputIsWired(viewId: string, d: ViewDetail)
    ensures |ViewEdges(viewId, d)| ==
            |d.inputs| + (if HasCalc(d) then 1 else 0) + (if HasFilter(d) then 1 else 0)
    ensures forall i :: 0 <= i < |d.inputs| ==>
              ViewEdges(viewId, d)[|AnnotationEdges(viewId, d)| + i] ==
              EdgeDecl(Strip(d.inputs[i], '#'), ChainPath(viewId, d)[0], Some(JoinCaption(d)))
  {
    InputEdgesInOrder(viewId, d, d.inputs);
  }

  /** When the inputs are already stripped of `#`, every input edge starts
      at its input as given. */
  lemma StrippedInputsStartEdges(viewId: string, d: ViewDetail)
    requires forall x :: x in d.inputs ==> Strip(x, '#') == x
    ensures forall i :: 0 <= i < |d.inputs| ==>
              ViewEdges(viewId, d)[|AnnotationEdges(viewId, d)| + i].src == d.inputs[i]
  {
    EveryInputIsWired(viewId, d);
  }

  // ---------------------------------------------------------------------
  // the output edge
  // ---------------------------------------------------------------------

  /** The number of edges into vertex `x`. */
  function CountInto(es: seq<EdgeDecl>, x: string): nat
  {
    if es == [] then 0
    else CountInto(es[..|es| - 1], x) + (if Last(es).dst == x then 1 else 0)
  }

  lemma {:induction false} CountIntoAppend(xs: seq<EdgeDecl>, ys: seq<EdgeDecl>, x: string)
    ensures CountInto(xs + ys, x) == CountInto(xs, x) + CountInto(ys, x)
    decreases |ys|
  {
    if ys == [] {
      assert xs + ys == xs;
    } else {
      assert (xs + ys)[..|xs + ys| - 1] == xs + ys[..|ys| - 1];
      assert Last(xs + ys) == Last(ys);
      CountIntoAppend(xs, ys[..|ys| - 1], x);
    }
  }

  lemma {:induction false} CountIntoNone(es: seq<EdgeDecl>, x: string)
    requires forall e :: e in es ==> e.dst != x
    ensures CountInto(es, x) == 0
    decreases |es|
  {
    if es != [] {
      assert forall e :: e in es[..|es| - 1] ==> e in es;
      CountIntoNone(es[..|es| - 1], x);
    }
  }

  /** The output id is none of the vertices the views' edges point at. */
  predicate OutputIdFresh(a: Analysis)
    requires Constructible(a)
  {
    forall i :: 0 <= i < |a.views| ==>
      var v := a.views[i].id.value;
      a.general.id.value != v && a.general.id.value != CalcId(v) && a.general.id.value != FilterId(v)
  }

  /** No edge of the views' chains points at an id other than a view, its
      `_calc` or its `_filter` vertex. */
  lemma {:induction false} ChainEdgesAvoid(vs: seq<ViewEntry>, x: string)
    requires ViewIdsPresent(vs)
    requires forall i :: 0 <= i < |vs| ==>
               x != vs[i].id.value && x != CalcId(vs[i].id.value) && x != FilterId(vs[i].id.value)
    ensures CountInto(ChainEdges(vs), x) == 0
    decreases |vs|
  {
    if vs != [] {
      var front := vs[..|vs| - 1];
      var last := vs[|vs| - 1];
      ChainEdgesAvoid(front, x);
      InputEdgesInOrder(last.id.value, last.detail, last.detail.inputs);
      CountIntoNone(ViewEdges(last.id.value, last.detail), x);
      CountIntoAppend(ChainEdges(front), ViewEdges(last.id.value, last.detail), x);
    }
  }

  /** When the output id is fresh, exactly one edge enters the output
      vertex if there is at least one view, and none otherwise; it is the
      last edge and leaves the last view's output source. */
  lemma OneEdgeIntoOutput(a: Analysis, base: seq<NodeDecl>, graph: Graph)
    requires Constructible(a) && IsGraphOf(a, base, graph)
    requires OutputIdFresh(a)
    ensures CountInto(graph.edges, a.general.id.value) == if a.views == [] then 0 else 1
    ensures a.views != [] ==>
              var last := a.views[|a.views| - 1];
              Last(graph.edges) == EdgeDecl(OutputSource(last.id.value, last.detail), a.general.id.value, None)
  {
    var out := a.general.id.value;
    ChainEdgesAvoid(a.views, out);
    CountIntoAppend(ChainEdges(a.views), OutputEdges(a), out);
  }

  // ---------------------------------------------------------------------
  // when every label can be built
  // ---------------------------------------------------------------------

  /** Every label of the graph can be built. */
  predicate GraphRenders(graph: Graph)
  {
    NodesRender(graph.nodes) &&
    (forall e :: e in graph.edges && e.caption.Some? ==> Renders(e.caption.value))
  }

  /** The labels of a view's edges can be built exactly when its join
      label can be built or it has no input. */
  lemma ViewEdgesRender(viewId: string, d: ViewDetail)
    ensures (forall e :: e in ViewEdges(viewId, d) && e.caption.Some? ==> Renders(e.caption.value)) <==>
            InputsLabelled(d)
  {
    InputEdgesInOrder(viewId, d, d.inputs);
    if d.inputs != [] {
      var k := |AnnotationEdges(viewId, d)|;
      assert ViewEdges(viewId, d)[k] == InputEdge(viewId, d, d.inputs[0]);
    }
  }

  /** The labels of the chain edges can be built exactly when every view
      with inputs has a buildable join label. */
  lemma {:induction false} ChainEdgesRender(vs: seq<ViewEntry>)
    requires ViewIdsPresent(vs)
    ensures (forall e :: e in ChainEdges(vs) && e.caption.Some? ==> Renders(e.caption.value)) <==>
            (forall i :: 0 <= i < |vs| ==> InputsLabelled(vs[i].detail))
    decreases |vs|
  {
    if vs != [] {
      var front := vs[..|vs| - 1];
      var last := vs[|vs| - 1];
      ChainEdgesRender(front);
      ViewEdgesRender(last.id.value, last.detail);
      assert forall i :: 0 <= i < |front| ==> front[i] == vs[i];
    }
  }

  /** The annotation vertices' labels can always be built. */
  lemma {:induction false} ChainNodesRender(vs: seq<ViewEntry>)
    requires ViewIdsPresent(vs)
    ensures NodesRender(ChainNodes(vs))
    decreases |vs|
  {
    if vs != [] {
      ChainNodesRender(vs[..|vs| - 1]);
    }
  }

  /** The base vertices' labels can be built exactly when the first source
      row with each ID has a Type. */
  lemma BaseNodesRender(a: Analysis, base: seq<NodeDecl>)
    requires SourceIdsPresent(a.sources) && BaseNodes(a, base)
    ensures NodesRender(base) <==>
            (forall r :: r in a.sources && r.id.Some? ==> SourceWithId(a.sources, r.id.value).value.kind.Some?)
  {
    if NodesRender(base) {
      forall r | r in a.sources && r.id.Some?
        ensures SourceWithId(a.sources, r.id.value).value.kind.Some?
      {
        var id := r.id.value;
        assert id in SourceIdSet(a.sources);
        assert id in NodeIds(base);
        var n :| n in base && n.id == id;
        assert Renders(n.caption);
      }
    }
  }

  /** Every vertex label of `ns` can be built. */
  predicate NodesRender(ns: seq<NodeDecl>)
  {
    forall n :: n in ns ==> Renders(n.caption)
  }

  lemma NodesRenderAppend(xs: seq<NodeDecl>, ys: seq<NodeDecl>)
    ensures NodesRender(xs + ys) <==> NodesRender(xs) && NodesRender(ys)
  {
    assert forall n :: n in xs + ys <==> n in xs || n in ys;
  }

  lemma GraphNodesRender(a: Analysis, base: seq<NodeDecl>, graph: Graph)
    requires Constructible(a) && IsGraphOf(a, base, graph)
    ensures NodesRender(graph.nodes) <==> NodesRender(base)
  {
    var chain := ChainNodes(a.views);
    ChainNodesRender(a.views);
    NodesRenderAppend(base + [OutputNode(a)], chain);
    NodesRenderAppend(base, [OutputNode(a)]);
  }

  lemma GraphEdgesRender(a: Analysis, base: seq<NodeDecl>, graph: Graph)
    requires Constructible(a) && IsGraphOf(a, base, graph)
    ensures (forall e :: e in graph.edges && e.caption.Some? ==> Renders(e.caption.value)) <==>
            (forall e :: e in ChainEdges(a.views) && e.caption.Some? ==> Renders(e.caption.value))
  {
    var chain := ChainEdges(a.views);
    var out := OutputEdges(a);
    assert forall e :: e in out ==> e.caption.None?;
    assert forall e :: e in chain ==> e in graph.edges;
  }

  /** Every label of the graph can be built if and only if the analysis
      meets `LabelsDefined`. The other failure of the analyzer as written,
      the KeyError of its first pass on a document without data sources,
      is `FirstPassRaises` below. */
  lemma GraphRendersIff(a: Analysis, base: seq<NodeDecl>, graph: Graph)
    requires Constructible(a) && IsGraphOf(a, base, graph)
    ensures GraphRenders(graph) <==> LabelsDefined(a)
  {
    GraphNodesRender(a, base, graph);
    BaseNodesRender(a, base);
    GraphEdgesRender(a, base, graph);
    ChainEdgesRender(a.views);
  }

  // ---------------------------------------------------------------------
  // the first pass as written: a document without data sources
  // ---------------------------------------------------------------------

  /** The first pass as written raises KeyError exactly when the document
      has no data source but has a view: there is then an id to look up,
      and the source frame has no columns. */
  lemma FirstPassRaisesIff(a: Analysis)
    requires ViewIdsPresent(a.views)
    ensures FirstPassRaises(a) <==> a.sources == [] && a.views != []
  {
    if a.sources == [] && a.views != [] {
      var id := a.views[0].id.value;
      assert id in ViewIdSet(a.views);
      assert id in AllIds(a) && SourceLookupAsWritten(a.sources, id).None?;
    }
  }

  /** A document `CV` with one projection `V1`, no input and no data
      source. */
  const SourcelessDoc: Analysis :=
    Analysis(General(Some("CV"), None, None, None, None, None),
             [],
             [ViewEntry(Some("V1"), ViewDetail("Projection", [], None, [], [], []))],
             [], [])

  /** On that document the analyzer as written raises KeyError in its first
      pass, while the intended graph declares `V1` and draws its edge into
      the output vertex. */
  lemma SourcelessViewAsWritten(base: seq<NodeDecl>, graph: Graph)
    requires Constructible(SourcelessDoc) && IsGraphOf(SourcelessDoc, base, graph)
    ensures FirstPassRaises(SourcelessDoc)
    ensures NodeIds(base) == {"V1"}
    ensures graph.edges == [EdgeDecl("V1", "CV", None)]
  {
    FirstPassRaisesIff(SourcelessDoc);
    var vs := SourcelessDoc.views;
    assert vs[..0] == [];
    assert ViewIdSet(vs) == {"V1"} by {
      assert vs[0] in vs;
    }
    assert ChainEdges(vs) == ChainEdges(vs[..0]) + ViewEdges("V1", vs[0].detail);
  }

  /** Without data sources the intended first pass declares exactly the
      views, each labelled from its own entry. */
  lemma SourcelessBaseNodes(a: Analysis, base: seq<NodeDecl>)
    requires a.sources == [] && BaseNodes(a, base)
    ensures NodeIds(base) == ViewIdSet(a.views)
    ensures forall n :: n in base ==>
              Lookup(a.views, Some(n.id)).Some? &&
              n.caption == ViewCaption(n.id, Lookup(a.views, Some(n.id)).value)
  {
    assert SourceIdSet(a.sources) == {};
    forall n | n in base
      ensures Lookup(a.views, Some(n.id)).Some? &&
              n.caption == ViewCaption(n.id, Lookup(a.views, Some(n.id)).value)
    {
      assert n.id in NodeIds(base);
      BaseCaptionOfDeclaredId(a, n.id);
    }
  }
}
