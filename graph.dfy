/** The data-flow graph of an analysis (`generate_graphviz_dot`): one
    vertex per view id and per deduplicated source id, an output vertex,
    the `_calc` and `_filter` annotation vertices of each view, the edges
    that thread every view's inputs through its annotations into the view,
    and one edge from the last view into the output vertex.

    The graph is kept as the sequences of vertex and edge declarations a
    `Digraph` receives; DOT text and styling are not modelled. Each vertex
    and edge records the caption its label is built from, and
    `Labels.Render` gives the label's exact text. An edge caption is `None`
    when the analyzer passes no label and `Some(c)` when it passes one
    (every input edge does, even an empty one). */
module GraphBuilder {
  import opened Wrappers
  import opened Text
  import opened Model
  import opened Labels

  datatype NodeDecl = NodeDecl(id: string, caption: Caption)

  datatype EdgeDecl = EdgeDecl(src: string, dst: string, caption: Option<Caption>)

  datatype Graph = Graph(nodes: seq<NodeDecl>, edges: seq<EdgeDecl>)

  /** The graph under construction: the declarations made so far. */
  class Digraph {
    var nodes: seq<NodeDecl>
    var edges: seq<EdgeDecl>

    constructor ()
      ensures nodes == [] && edges == []
    {
      nodes := [];
      edges := [];
    }

    /** `g.node(id, label=...)`. */
    method Node(id: string, caption: Caption)
      modifies this
      ensures nodes == old(nodes) + [NodeDecl(id, caption)]
      ensures edges == old(edges)
    {
      nodes := nodes + [NodeDecl(id, caption)];
    }

    /** `g.edge(src, dst, ...)`, with the label if one is passed. */
    method Edge(src: string, dst: string, caption: Option<Caption>)
      modifies this
      ensures edges == old(edges) + [EdgeDecl(src, dst, caption)]
      ensures nodes == old(nodes)
    {
      edges := edges + [EdgeDecl(src, dst, caption)];
    }
  }

  // ---------------------------------------------------------------------
  // base vertices
  // ---------------------------------------------------------------------

  /** The ids of the view table. */
  function ViewIdSet(vs: seq<ViewEntry>): set<string>
  {
    set e | e in vs && e.id.Some? :: e.id.value
  }

  /** The ids of the (deduplicated) source table. */
  function SourceIdSet(rows: seq<DataSource>): set<string>
  {
    set r | r in rows && r.id.Some? :: r.id.value
  }

  /** Every id that gets a base vertex. */
  function AllIds(a: Analysis): set<string>
  {
    ViewIdSet(a.views) + SourceIdSet(a.sources)
  }

  /** The first source row with the given ID (`is_data_source.iloc[0]`). */
  function SourceWithId(rows: seq<DataSource>, id: string): (r: Option<DataSource>)
    ensures r.None? <==> id !in SourceIdSet(rows)
    ensures r.Some? ==> r.value in rows && r.value.id == Some(id)
  {
    if rows == [] then None
    else if rows[0].id == Some(id) then Some(rows[0])
    else
      assert SourceIdSet(rows) == SourceIdSet(rows[..1]) + SourceIdSet(rows[1..]) by {
        assert rows == rows[..1] + rows[1..];
      }
      SourceWithId(rows[1..], id)
  }

  /** The row `SourceWithId` finds is the first row with the ID: no row
      before it carries that ID. */
  lemma {:induction false} SourceWithIdIsFirst(rows: seq<DataSource>, id: string)
    ensures SourceWithId(rows, id).Some? ==>
              exists i :: 0 <= i < |rows| && rows[i] == SourceWithId(rows, id).value &&
                          forall j :: 0 <= j < i ==> rows[j].id != Some(id)
  {
    if rows != [] && rows[0].id != Some(id) {
      SourceWithIdIsFirst(rows[1..], id);
      var rest := SourceWithId(rows[1..], id);
      if rest.Some? {
        var k :| 0 <= k < |rows[1..]| && rows[1..][k] == rest.value &&
                 forall j :: 0 <= j < k ==> rows[1..][j].id != Some(id);
        forall j | 0 <= j < k + 1
          ensures rows[j].id != Some(id)
        {
          if j > 0 { assert rows[j] == rows[1..][j - 1]; }
        }
        assert rows[k + 1] == rest.value;
      }
    }
  }

  /** Every view entry has an id. */
  predicate ViewIdsPresent(vs: seq<ViewEntry>)
  {
    forall i :: 0 <= i < |vs| ==> vs[i].id.Some?
  }

  /** Every source row has an ID. */
  predicate SourceIdsPresent(rows: seq<DataSource>)
  {
    forall r :: r in rows ==> r.id.Some?
  }

  /** The ids the graph is built from are present: the output vertex's,
      every view's and every source row's. */
  predicate Constructible(a: Analysis)
  {
    a.general.id.Some? && ViewIdsPresent(a.views) && SourceIdsPresent(a.sources)
  }

  /** The join label of a view's input edges can be built (it is built
      once per input, so a view without inputs never builds it). */
  predicate InputsLabelled(d: ViewDetail)
  {
    d.inputs != [] ==> JoinLabelDefined(d)
  }

  /** Every label the analyzer builds can be built: the first source row
      with each ID has a Type (its label calls `replace` on it) and every
      view with inputs has a join type when it has a join record. */
  predicate LabelsDefined(a: Analysis)
  {
    (forall i :: 0 <= i < |a.views| ==> InputsLabelled(a.views[i].detail)) &&
    (forall r :: r in a.sources && r.id.Some? ==> SourceWithId(a.sources, r.id.value).value.kind.Some?)
  }

  /** The first pass's lookup `source_df[source_df['ID'] == node_id]` as
      the analyzer writes it. A source frame built from no rows at all has
      no columns, so selecting its `ID` column raises KeyError (`None`
      here); otherwise the lookup yields the first row with that ID, if
      any. */
  function SourceLookupAsWritten(rows: seq<DataSource>, id: string): Option<Option<DataSource>>
  {
    if rows == [] then None else Some(SourceWithId(rows, id))
  }

  /** The first pass as written raises KeyError: some collected id is
      looked up in a source frame without columns. */
  predicate FirstPassRaises(a: Analysis)
  {
    exists id :: id in AllIds(a) && SourceLookupAsWritten(a.sources, id).None?
  }

  /** The caption of a base vertex: a source row with that ID wins; else
      the view entry; else the id itself. */
  function BaseCaption(a: Analysis, id: string): Caption
  {
    match SourceWithId(a.sources, id)
    case Some(row) => SourceCaption(row)
    case None =>
      match Lookup(a.views, Some(id))
      case Some(d) => ViewCaption(id, d)
      case None => IdCaption(id)
  }

  /** The ids of a sequence of vertex declarations. */
  function NodeIds(ns: seq<NodeDecl>): set<string>
  {
    set n | n in ns :: n.id
  }

  /** No id is declared twice. */
  predicate DistinctIds(ns: seq<NodeDecl>)
  {
    forall i, j :: 0 <= i < j < |ns| ==> ns[i].id != ns[j].id
  }

  /** `ns` declares every id of `ids` exactly once, and nothing else. */
  predicate DeclaresOnce(ns: seq<NodeDecl>, ids: set<string>)
  {
    DistinctIds(ns) && NodeIds(ns) == ids && |ns| == |ids|
  }

  /** `ns` declares each id of `ids` once, with its base caption. */
  predicate Declared(a: Analysis, ns: seq<NodeDecl>, ids: set<string>)
  {
    DeclaresOnce(ns, ids) &&
    forall n :: n in ns ==> n.caption == BaseCaption(a, n.id)
  }

  lemma DeclaresOnceSnoc(ns: seq<NodeDecl>, ids: set<string>, n: NodeDecl)
    requires DeclaresOnce(ns, ids) && n.id !in ids
    ensures DeclaresOnce(ns + [n], ids + {n.id})
  {
    assert NodeIds(ns + [n]) == NodeIds(ns) + {n.id};
  }

  /** Declaring one more id, taken out of the ids still to declare. */
  lemma DeclaredStep(a: Analysis, ns: seq<NodeDecl>, all: set<string>, remaining: set<string>, id: string)
    requires remaining <= all && id in remaining
    requires Declared(a, ns, all - remaining)
    ensures Declared(a, ns + [NodeDecl(id, BaseCaption(a, id))], all - (remaining - {id}))
  {
    var n := NodeDecl(id, BaseCaption(a, id));
    DeclaresOnceSnoc(ns, all - remaining, n);
    assert all - (remaining - {id}) == (all - remaining) + {id};
  }

  /** The base vertices of an analysis: each id of `AllIds` exactly once,
      with its base caption. */
  predicate BaseNodes(a: Analysis, ns: seq<NodeDecl>)
  {
    Declared(a, ns, AllIds(a))
  }

  // ---------------------------------------------------------------------
  // the annotation chain of one view
  // ---------------------------------------------------------------------

  function CalcId(viewId: string): string
  {
    viewId + "_calc"
  }

  function FilterId(viewId: string): string
  {
    viewId + "_filter"
  }

  /** `details.get("calculated_attributes")` is truthy. */
  predicate HasCalc(d: ViewDetail)
  {
    d.calcAttrs != []
  }

  /** `details.get("filters")` is truthy. */
  predicate HasFilter(d: ViewDetail)
  {
    d.filter.Some? && d.filter.value != ""
  }

  /** Where a view's input edges arrive: the filter, else the calculated
      attributes, else the view. */
  function InputTarget(viewId: string, d: ViewDetail): string
  {
    if HasFilter(d) then FilterId(viewId)
    else if HasCalc(d) then CalcId(viewId)
    else viewId
  }

  /** Where the output edge leaves a view: the calculated attributes, else
      the filter, else the view. */
  function OutputSource(viewId: string, d: ViewDetail): string
  {
    if HasCalc(d) then CalcId(viewId)
    else if HasFilter(d) then FilterId(viewId)
    else viewId
  }

  /** The annotation vertices of a view, in declaration order. */
  function AnnotationNodes(viewId: string, d: ViewDetail): seq<NodeDecl>
  {
    (if HasCalc(d) then [NodeDecl(CalcId(viewId), CalcCaption(d.calcAttrs))] else []) +
    (if HasFilter(d) then [NodeDecl(FilterId(viewId), FilterCaption(d.filter.value))] else [])
  }

  /** The unlabelled edges between a view's annotations and the view. */
  function AnnotationEdges(viewId: string, d: ViewDetail): seq<EdgeDecl>
  {
    (if HasCalc(d) then [EdgeDecl(CalcId(viewId), viewId, None)] else []) +
    (if HasFilter(d) then [EdgeDecl(FilterId(viewId), if HasCalc(d) then CalcId(viewId) else viewId, None)] else [])
  }

  /** The edge from one input of a view: from the stripped input to the
      view's input target, labelled with the view's join label. */
  function InputEdge(viewId: string, d: ViewDetail, input: string): EdgeDecl
  {
    EdgeDecl(Strip(input, '#'), InputTarget(viewId, d), Some(JoinCaption(d)))
  }

  /** One input edge per input, in input order. */
  function InputEdges(viewId: string, d: ViewDetail, inputs: seq<string>): (es: seq<EdgeDecl>)
    ensures |es| == |inputs|
  {
    if inputs == [] then []
    else InputEdges(viewId, d, inputs[..|inputs| - 1]) + [InputEdge(viewId, d, inputs[|inputs| - 1])]
  }

  lemma InputEdgesSnoc(viewId: string, d: ViewDetail, inputs: seq<string>, k: nat)
    requires k < |inputs|
    ensures InputEdges(viewId, d, inputs[..k + 1]) ==
            InputEdges(viewId, d, inputs[..k]) + [InputEdge(viewId, d, inputs[k])]
  {
    assert inputs[..k + 1][..k] == inputs[..k];
  }

  /** Every edge one view contributes, in declaration order. */
  function ViewEdges(viewId: string, d: ViewDetail): seq<EdgeDecl>
  {
    AnnotationEdges(viewId, d) + InputEdges(viewId, d, d.inputs)
  }

  /** The annotation vertices of all views, in view-table order. */
  function ChainNodes(vs: seq<ViewEntry>): seq<NodeDecl>
    requires ViewIdsPresent(vs)
  {
    if vs == [] then []
    else
      var last := vs[|vs| - 1];
      ChainNodes(vs[..|vs| - 1]) + AnnotationNodes(last.id.value, last.detail)
  }

  /** The edges of all views, in view-table order. */
  function ChainEdges(vs: seq<ViewEntry>): seq<EdgeDecl>
    requires ViewIdsPresent(vs)
  {
    if vs == [] then []
    else
      var last := vs[|vs| - 1];
      ChainEdges(vs[..|vs| - 1]) + ViewEdges(last.id.value, last.detail)
  }

  lemma ChainSnoc(vs: seq<ViewEntry>, k: nat)
    requires ViewIdsPresent(vs) && k < |vs|
    ensures ChainNodes(vs[..k + 1]) == ChainNodes(vs[..k]) + AnnotationNodes(vs[k].id.value, vs[k].detail)
    ensures ChainEdges(vs[..k + 1]) == ChainEdges(vs[..k]) + ViewEdges(vs[k].id.value, vs[k].detail)
  {
    assert vs[..k + 1][..k] == vs[..k];
  }

  /** The output vertex: the document's id, labelled with its column count. */
  function OutputNode(a: Analysis): NodeDecl
    requires a.general.id.Some?
  {
    NodeDecl(a.general.id.value, OutputCaption(|a.attributes| + |a.measures|))
  }

  /** The edge into the output vertex, from the last view, if there is one. */
  function OutputEdges(a: Analysis): seq<EdgeDecl>
    requires a.general.id.Some? && ViewIdsPresent(a.views)
  {
    if a.views == [] then []
    else
      var last := a.views[|a.views| - 1];
      [EdgeDecl(OutputSource(last.id.value, last.detail), a.general.id.value, None)]
  }

  // ---------------------------------------------------------------------
  // construction
  // ---------------------------------------------------------------------

  /** The second pass for one view: its annotation vertices and edges, then
      one edge per input into the start of its chain. */
  method ThreadView(g: Digraph, viewId: string, details: ViewDetail)
    modifies g
    ensures g.nodes == old(g.nodes) + AnnotationNodes(viewId, details)
    ensures g.edges == old(g.edges) + ViewEdges(viewId, details)
  {
    var hasFilter := details.filter.Some? && details.filter.value != "";
    var hasCalcAttrs := details.calcAttrs != [];
    AddAnnotations(g, viewId, details, hasFilter, hasCalcAttrs);
    AddInputEdges(g, viewId, details, hasFilter, hasCalcAttrs);
    AppendAssoc(old(g.edges), AnnotationEdges(viewId, details), InputEdges(viewId, details, details.inputs));
  }

  /** The `_calc` vertex and its edge into the view, then the `_filter`
      vertex and its edge into the `_calc` vertex or the view. */
  method AddAnnotations(g: Digraph, viewId: string, details: ViewDetail, hasFilter: bool, hasCalcAttrs: bool)
    requires hasFilter == HasFilter(details) && hasCalcAttrs == HasCalc(details)
    modifies g
    ensures g.nodes == old(g.nodes) + AnnotationNodes(viewId, details)
    ensures g.edges == old(g.edges) + AnnotationEdges(viewId, details)
  {
    if hasCalcAttrs {
      var calcNodeId := viewId + "_calc";
      g.Node(calcNodeId, CalcCaption(details.calcAttrs));
      g.Edge(calcNodeId, viewId, None);
    }
    if hasFilter {
      var filterNodeId := viewId + "_filter";
      g.Node(filterNodeId, FilterCaption(details.filter.value));
      if hasCalcAttrs {
        g.Edge(filterNodeId, viewId + "_calc", None);
      } else {
        g.Edge(filterNodeId, viewId, None);
      }
    }
  }

  /** One labelled edge per input of the view, into the start of its chain. */
  method AddInputEdges(g: Digraph, viewId: string, details: ViewDetail, hasFilter: bool, hasCalcAttrs: bool)
    requires hasFilter == HasFilter(details) && hasCalcAttrs == HasCalc(details)
    modifies g
    ensures g.nodes == old(g.nodes)
    ensures g.edges == old(g.edges) + InputEdges(viewId, details, details.inputs)
  {
    ghost var start := g.edges;
    for k := 0 to |details.inputs|
      invariant g.nodes == old(g.nodes)
      invariant g.edges == start + InputEdges(viewId, details, details.inputs[..k])
    {
      var inputNode := details.inputs[k];
      var cleanedInput := Strip(inputNode, '#');
      var joinLabel := JoinCaption(details);
      var edgeTarget := viewId;
      if hasFilter {
        edgeTarget := viewId + "_filter";
      } else if hasCalcAttrs {
        edgeTarget := viewId + "_calc";
      }
      assert EdgeDecl(cleanedInput, edgeTarget, Some(joinLabel)) == InputEdge(viewId, details, inputNode);
      InputEdgesSnoc(viewId, details, details.inputs, k);
      AppendAssoc(start, InputEdges(viewId, details, details.inputs[..k]), [InputEdge(viewId, details, inputNode)]);
      g.Edge(cleanedInput, edgeTarget, Some(joinLabel));
    }
    assert details.inputs[..|details.inputs|] == details.inputs;
  }

  /** The ids of the view table, then the ID of every source row added
      one by one. */
  method CollectIds(analysis: Analysis) returns (allNodes: set<string>)
    requires SourceIdsPresent(analysis.sources)
    ensures allNodes == AllIds(analysis)
  {
    allNodes := ViewIdSet(analysis.views);
    for k := 0 to |analysis.sources|
      invariant allNodes == ViewIdSet(analysis.views) + SourceIdSet(analysis.sources[..k])
    {
      var row := analysis.sources[k];
      assert analysis.sources[..k + 1] == analysis.sources[..k] + [row];
      allNodes := allNodes + {row.id.value};
    }
    assert analysis.sources[..|analysis.sources|] == analysis.sources;
  }

  /** The first pass: one vertex per base id, in the (unspecified) order of
      the set. */
  method DeclareBaseNodes(g: Digraph, analysis: Analysis)
    requires SourceIdsPresent(analysis.sources)
    requires g.nodes == [] && g.edges == []
    modifies g
    ensures BaseNodes(analysis, g.nodes)
    ensures g.edges == []
  {
    var allNodes := CollectIds(analysis);
    var remaining := allNodes;
    while remaining != {}
      invariant remaining <= allNodes
      invariant Declared(analysis, g.nodes, allNodes - remaining)
      invariant g.edges == []
      decreases |remaining|
    {
      var nodeId :| nodeId in remaining;
      DeclaredStep(analysis, g.nodes, allNodes, remaining, nodeId);
      g.Node(nodeId, BaseCaption(analysis, nodeId));
      remaining := remaining - {nodeId};
    }
    assert allNodes - {} == allNodes;
  }

  lemma AppendAssoc<T>(a: seq<T>, b: seq<T>, c: seq<T>)
    ensures a + (b + c) == (a + b) + c
  {
  }

  /** The second pass: every view of the table, in insertion order. */
  method ThreadViews(g: Digraph, analysis: Analysis)
    requires ViewIdsPresent(analysis.views)
    modifies g
    ensures g.nodes == old(g.nodes) + ChainNodes(analysis.views)
    ensures g.edges == old(g.edges) + ChainEdges(analysis.views)
  {
    ghost var startNodes := g.nodes;
    ghost var startEdges := g.edges;
    for k := 0 to |analysis.views|
      invariant g.nodes == startNodes + ChainNodes(analysis.views[..k])
      invariant g.edges == startEdges + ChainEdges(analysis.views[..k])
    {
      var entry := analysis.views[k];
      ChainSnoc(analysis.views, k);
      AppendAssoc(startNodes, ChainNodes(analysis.views[..k]), AnnotationNodes(entry.id.value, entry.detail));
      AppendAssoc(startEdges, ChainEdges(analysis.views[..k]), ViewEdges(entry.id.value, entry.detail));
      ThreadView(g, entry.id.value, entry.detail);
    }
    assert analysis.views[..|analysis.views|] == analysis.views;
  }

  /** The final edge, from the last view's `_calc`, else its `_filter`,
      else the view itself, into the output vertex. */
  method AddOutputEdge(g: Digraph, analysis: Analysis)
    requires analysis.general.id.Some? && ViewIdsPresent(analysis.views)
    modifies g
    ensures g.nodes == old(g.nodes)
    ensures g.edges == old(g.edges) + OutputEdges(analysis)
  {
    if analysis.views != [] {
      var lastView := analysis.views[|analysis.views| - 1];
      var lastViewId := lastView.id.value;
      var lastSource := lastViewId;
      if lastView.detail.calcAttrs != [] {
        lastSource := lastViewId + "_calc";
      } else if lastView.detail.filter.Some? && lastView.detail.filter.value != "" {
        lastSource := lastViewId + "_filter";
      }
      g.Edge(lastSource, analysis.general.id.value, None);
    }
  }

  /** The graph of an analysis, given its base vertices `base` (each id
      of `AllIds` once, in the order the set is iterated): the base
      vertices, the output vertex and the annotation vertices of the views
      in view-table order; the edges of every view in view-table order,
      then the output edge. */
  predicate IsGraphOf(a: Analysis, base: seq<NodeDecl>, graph: Graph)
    requires Constructible(a)
  {
    BaseNodes(a, base) &&
    graph.nodes == base + [OutputNode(a)] + ChainNodes(a.views) &&
    graph.edges == ChainEdges(a.views) + OutputEdges(a)
  }

  /** The first pass (function.py:239-264): the base vertices, then the
      output vertex. */
  method FirstPass(g: Digraph, analysis: Analysis) returns (ghost base: seq<NodeDecl>)
    requires analysis.general.id.Some? && SourceIdsPresent(analysis.sources)
    requires g.nodes == [] && g.edges == []
    modifies g
    ensures BaseNodes(analysis, base)
    ensures g.nodes == base + [OutputNode(analysis)]
    ensures g.edges == []
  {
    DeclareBaseNodes(g, analysis);
    base := g.nodes;
    var outputNodeId := analysis.general.id.value;
    g.Node(outputNodeId, OutputCaption(|analysis.attributes| + |analysis.measures|));
  }

  /** The second pass (function.py:266-362): every view's chain, then the
      output edge. */
  method SecondPass(g: Digraph, analysis: Analysis)
    requires analysis.general.id.Some? && ViewIdsPresent(analysis.views)
    modifies g
    ensures g.nodes == old(g.nodes) + ChainNodes(analysis.views)
    ensures g.edges == old(g.edges) + ChainEdges(analysis.views) + OutputEdges(analysis)
  {
    ThreadViews(g, analysis);
    AddOutputEdge(g, analysis);
  }

  /** `generate_graphviz_dot`; `base` is the order in which the first pass
      happened to declare the base vertices. */
  method GenerateGraph(analysis: Analysis) returns (graph: Graph, ghost base: seq<NodeDecl>)
    requires Constructible(analysis)
    ensures IsGraphOf(analysis, base, graph)
  {
    var g := new Digraph();
    base := FirstPass(g, analysis);
    SecondPass(g, analysis);
    graph := Graph(g.nodes, g.edges);
  }
}
