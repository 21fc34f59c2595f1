# SAP HANA Calculation View Analyzer — a verified model of its core

The analyzer reads a SAP HANA calculation view (an XML document) and draws
its data flow. Its core is `function.py`, which runs in two stages:

* **`analyze_cv`** walks the parsed element tree and builds an analysis
  record with four parts:
  * general information about the view;
  * the table of data sources, deduplicated on (Type, Name, Schema) with
    the first row kept;
  * an insertion-ordered table of the calculation views, giving each one's
    type, inputs, filter, join attributes, join record and calculated
    attributes;
  * the final schema: its dimensions and measures.
* **`generate_graphviz_dot`** turns that record into a directed graph:
  * one vertex per view id and per kept source id;
  * `_calc` and `_filter` annotation vertices for each view;
  * an output vertex;
  * edges that thread every view's inputs through its annotations into
    the view, each input edge carrying the view's join label;
  * one edge from the last view into the output vertex.

The model takes the same two stages.

* `Extractor` defines one specification function for each part of the
  record. The general information is a single record built from
  attributes, as in the analyzer, so it is just that function
  (`GeneralOf`). The data sources, the view table (with each view's
  calculated attributes) and the final schema are filled in loops by the
  analyzer. Each of these parts has a method with the same loop, proved
  to produce exactly what its function describes.
* `GraphBuilder` keeps the graph as a `Digraph` object whose vertex and
  edge declaration lists the construction methods append to.
  `GenerateGraph` is proved to produce exactly the graph that `IsGraphOf`
  describes.
* Every vertex and edge records the *caption* its label is built from.
  `Labels.Render` gives the label's exact text.
* `GraphProperties` proves what the analyzer promises about that graph.
  `Pipeline` proves properties of both stages together.

Supporting modules:

| module | contents |
|---|---|
| `Wrappers` | `Option`; how an f-string prints `None` |
| `Text` | Python's `split`, `join`, `replace`, `strip(c)`, `isspace`, ASCII `title()` and `str(int)` over `seq<char>` |
| `ElementTree` | an element with tag, attributes, optional text and children; `find`, `findall` and `attrib.get` |
| `Model` | the record types; the insertion-ordered dictionary as a sequence of entries |
| `Dedup` | keep-first `drop_duplicates` |
| `Labels` | the label texts |

Namespaced tags such as `Calculation:joinAttribute` and plain ones such as
`joinAttribute` are simply different tag strings.

Three crash paths are preconditions:
* the extractor needs an `xsi:type` on every view, a `node` on every input
  and a text on every `resourceUri` of a referenced view;
* graph construction needs ids on the document, every view and every
  source row (and the analyzer as written also needs at least one data
  source as soon as there is a view: see Findings);
* label rendering needs a Type on each labelled source row and a join type
  on each join record that labels an edge.

`Labels.Render`'s precondition `Renders` captures the last of these.
`GraphProperties.GraphRendersIff` proves that every label of the graph
renders exactly when the analysis satisfies `LabelsDefined`.

Where the code and the intuitive reading differ, the model follows the
code:
* When a view has both calculated attributes and a filter, its inputs
  arrive at `_filter`, but the output edge leaves `_calc`
  (function.py:341-344 against 357-360).
* A source row dropped as a duplicate gets no vertex declaration, even
  when its ID differs from the kept row's ID; an input edge naming that ID
  still produces an unstyled vertex when the graph is drawn
  (function.py:82, 241).
* The "unknown id" branch of the first pass (function.py:257-259) is never
  taken.
* A filter vertex never gets the empty label of function.py:305-306: that
  branch is dead, because function.py:301 repeats the test of
  function.py:275 that guards the whole filter branch.

## Model

| member | source | states |
|---|---|---|
| Extractor.GeneralOf | function.py:35-43 | the id, data category, visibility, calculation scenario type and output view type are the root's attributes; `changedAt` is "N/A" without a `metadata` element and the metadata's attribute otherwise |
| Extractor.NameAndSchema | function.py:57-72 | a table's name and schema come from its `columnObject`, a referenced view's from the last segment and the inner segments of its `resourceUri`; both are "" when that element is missing or the type is neither |
| Extractor.ExtractDataSources | function.py:47-82 | the loop over the `DataSource` elements, followed by deduplication, yields exactly the deduplicated rows of the source elements in document order |
| Extractor.UriNameIsTail | function.py:71 | the name is a suffix of the URI that holds no `/`, preceded by `/` unless it is the whole URI |
| Extractor.UriRoundTrip | function.py:71-72 | for a URI that starts with `/` and has at least three segments, `"/" + schema + "/" + name` is the URI |
| Extractor.FilterOf | function.py:100-101 | the filter is absent exactly when the element, its text, or any non-whitespace in it is missing; otherwise it is the raw text, never "" |
| Extractor.CalcAttrOf | function.py:143-147 | the formula is the formula element's text, or "N/A" when the element is absent |
| Extractor.ExtractCalcAttrs | function.py:139-153 | the loop yields one record per `calculatedViewAttribute`, in document order |
| Extractor.ExtractJoinDetails | function.py:110-135 | the statements build exactly the join record list of the view |
| Extractor.ExtractView | function.py:90-162 | one view element gives its id and exactly its detail record |
| Extractor.ExtractCalcViews | function.py:86-162 | the loop leaves the table that assigning every view in document order produces |
| Extractor.ViewKindIsLocalName | function.py:91 | the view type is the text after the last `:` of `xsi:type`: a suffix with no `:` |
| Extractor.InputsAreStripped | function.py:94-97 | every input reference neither starts nor ends with `#`, and stripping it again changes nothing |
| Extractor.JoinDetailsShape | function.py:110-135 | there is a join record exactly when the type is `JoinView` with exactly two inputs, and then exactly one; it joins the first input with the second, lists every `joinAttribute` name in order, and its join attribute is the first of them or "" |
| Extractor.ViewTableContents | function.py:155-162 | the table holds each view id once, exactly the ids of the document, and each id maps to the detail of the last view carrying it |
| Extractor.ViewTableInDocumentOrder | function.py:155 | with distinct ids, the table's key order is document order |
| Extractor.ViewTableNewIdIsLast | function.py:155 | a view whose id is new becomes the table's last entry |
| Extractor.DescriptionOf | function.py:175-176 | the description is the `descriptions` element's `defaultDescription` when both are present, and "" when either is missing |
| Extractor.FinalSchemaOf | function.py:166-170 | no `logicalModel` gives empty attribute and measure lists |
| Extractor.ExtractAttributes | function.py:171-188 | the loop yields one dimension per `attribute`, in order |
| Extractor.ExtractMeasures | function.py:190-209 | the loop yields one measure per `measure`, in order |
| Extractor.ExtractFinalSchema | function.py:166-209 | both lists are the final schema of the document |
| Extractor.AnalyzeCv | function.py:11-222 | the record is exactly `Analyze(root)` |
| Dedup.DropDuplicates | function.py:82 | deduplication keeps every (Type, Name, Schema) triple of the input and leaves no two rows with the same triple |
| Dedup.DropDuplicatesIsSubsequence | function.py:82 | the kept rows are a subsequence of the input, in input order |
| Dedup.DropDuplicatesKeepsFirst | function.py:82 | every kept row is the first input row with its triple |
| Dedup.KeptIffFirst | function.py:82 | a row is kept exactly when it is the first input row with its triple |
| Dedup.DropDuplicatesOfUnique | function.py:82 | a table whose triples are already unique is unchanged |
| Dedup.DropDuplicatesIdempotent | function.py:82 | deduplicating twice is deduplicating once |
| Text.JoinSplit | function.py:71-72 | joining the parts of a split with the same separator gives back the text |
| Text.SplitPartsAvoidSeparator | function.py:71 | no part of a split on one character contains that character |
| Text.ReplaceIsJoinOfSplit | function.py:303 | replacing a pattern is splitting on it and joining with the replacement |
| Text.StripEnds | function.py:95 | a stripped text neither starts nor ends with the stripped character |
| Text.StripIsMiddle | function.py:95 | `strip(c)` removes exactly a leading and a trailing run of `c` |
| Text.StripIdempotent | function.py:318 | stripping twice is stripping once |
| Text.TitleIdempotent | function.py:255 | title-casing twice is title-casing once |
| Text.TitleFromKeepsNonLetters | function.py:255 | title-casing keeps every character up to case: letters stay the same letters, and every other character is unchanged |
| Text.NatToString | function.py:263 | `str(n)` is a non-empty string of decimal digits that starts with '0' only for zero |
| Text.NatToStringRoundTrip | function.py:263 | the column count is printed as its decimal numeral |
| Model.Lookup | function.py:252-253 | looking a key up fails exactly when it is not a key of the table |
| Model.PutKeys | function.py:155 | assigning an existing key keeps the key order; a new key is appended |
| Model.PutLookup | function.py:155 | after an assignment the key maps to the new value and every other key is unchanged |
| Model.PutKeepsKeysDistinct | function.py:155 | assignment keeps the keys distinct |
| Model.LookupFindsEntry | function.py:253 | in a table with distinct keys, looking up an entry's key yields that entry's detail |
| ElementTree.FindIsFirstOfFindAll | function.py:119-127 | `find` returns the first element `findall` returns, and nothing exactly when `findall` is empty |
| Labels.HumanizeHasNoUnderscore | function.py:255 | a humanized view id holds no underscore |
| Labels.JoinLabelShape | function.py:320-336 | the join label is "" exactly without a join record; otherwise it is `Type: <type>` with outer, inner and text capitalized, followed, only when there are join columns, by a newline and `left.col = right.col` per column joined by " AND " |
| Labels.JoinLabelStartsWithType | function.py:323-326 | a non-empty join label starts with its type line |
| Labels.FilterLabelLines | function.py:303-304 | the filter label is "(Filters)" followed by one line per " and "-separated part of the filter |
| Labels.SourceKindLabelNames | function.py:250 | a source vertex reads `name\n(Table)` for a `DATA_BASE_TABLE` and `name\n(View)` for a `CALCULATION_VIEW` |
| Labels.ViewLabelStartsHumanized | function.py:255 | a view vertex's label starts with the view id made readable, which holds no underscore |
| Labels.CalcLabelListsEveryAttr | function.py:281 | the calculated-attributes label starts with its heading and holds the line `id: formula` of every calculated attribute |
| Labels.OutputLabelCountsColumns | function.py:263 | the number in the output vertex's label reads back as the column count |
| GraphBuilder.SourceWithId | function.py:247-250 | a source row with an ID is found exactly when some row has it, and the row found carries that ID |
| GraphBuilder.SourceWithIdIsFirst | function.py:247-250 | the row found is the first with the ID (`iloc[0]`): no earlier row carries it |
| GraphBuilder.Digraph.Node | function.py:251 | a vertex declaration is appended and nothing else changes |
| GraphBuilder.Digraph.Edge | function.py:347 | an edge declaration is appended and nothing else changes |
| GraphBuilder.CollectIds | function.py:240-242 | the collected ids are the view ids together with the kept source ids |
| GraphBuilder.DeclareBaseNodes | function.py:245-259 | every collected id is declared exactly once, with a source row's caption when one has the ID and the view's otherwise |
| GraphBuilder.FirstPass | function.py:239-264 | the base vertices are followed by the output vertex, labelled with attributes plus measures columns |
| GraphBuilder.AddAnnotations | function.py:272-314 | the `_calc` vertex and its edge into the view, then the `_filter` vertex and its edge into `_calc` or the view |
| GraphBuilder.AddInputEdges | function.py:316-347 | one edge per input, in order, from the stripped input into the filter, else the calc vertex, else the view, labelled with the join caption |
| GraphBuilder.ThreadView | function.py:268-347 | one view adds its annotation vertices and its annotation and input edges |
| GraphBuilder.ThreadViews | function.py:267-347 | the second pass adds the chains of all views in table order |
| GraphBuilder.AddOutputEdge | function.py:350-362 | with at least one view, one edge from the last view's `_calc`, else its `_filter`, else the view, into the output vertex |
| GraphBuilder.SecondPass | function.py:266-362 | appends the chains of all views, then the output edge, to the edges already declared |
| GraphBuilder.GenerateGraph | function.py:225-364 | the declarations made are exactly the graph `IsGraphOf` describes |
| GraphProperties.BaseCaptionOfDeclaredId | function.py:245-259 | a declared base id is labelled from its first source row when it has one (a source wins over a view), else from its view; the fallback for an unknown id is never used |
| GraphProperties.ViewCaptionIsEntryDetail | function.py:252-255 | in a view table with distinct ids, the vertex of a view id no source row carries is labelled with the detail of the view entry with that id |
| GraphProperties.ChainPathShape | function.py:339-360 | a view's path runs filter, calc, view without repeating a vertex; the inputs enter at its start and the output edge leaves its last step before the view |
| GraphProperties.AnnotationChainIsPath | function.py:279-314 | the annotation edges are the steps of the filter, calc, view path, one unlabelled edge per step, and the annotation vertices are that path without the view |
| GraphProperties.OutputSourceIsInputTarget | function.py:339-360 | the output edge leaves where the inputs arrive exactly when the view does not have both annotations |
| GraphProperties.InputEdgesInOrder | function.py:316-347 | the i-th input edge is the edge of the i-th input |
| GraphProperties.EveryInputIsWired | function.py:272-347 | a view contributes \|inputs\| + [has calc] + [has filter] edges; each input edge runs from the stripped input to the start of the path, labelled with the join caption |
| GraphProperties.ChainEdgesAvoid | function.py:266-347 | the views' edges point only at views and their `_calc` and `_filter` vertices |
| GraphProperties.OneEdgeIntoOutput | function.py:349-362 | when the output id is not a view or annotation id, exactly one edge enters the output vertex if there is a view and none otherwise; it is the last edge and leaves the last view's output source |
| GraphProperties.ViewEdgesRender | function.py:320-336 | a view's edge labels can be built exactly when it has no input or its join record has a join type |
| GraphProperties.ChainEdgesRender | function.py:320-336 | every edge label can be built exactly when this holds for every view |
| GraphProperties.ChainNodesRender | function.py:281-304 | annotation labels can always be built |
| GraphProperties.BaseNodesRender | function.py:250 | the base vertex labels can be built exactly when the first row with each source ID has a Type |
| GraphProperties.GraphRendersIff | function.py:250-324 | every label of the graph can be built exactly when the analysis meets `LabelsDefined` |
| GraphProperties.FirstPassRaisesIff | function.py:247 | the first pass as written raises KeyError exactly when there is no data source and at least one view |
| GraphProperties.SourcelessViewAsWritten | function.py:247 | on a document with one view and no data source the analyzer as written raises, while the intended graph declares the view and its edge into the output vertex |
| GraphProperties.SourcelessBaseNodes | function.py:245-259 | without data sources the intended first pass declares exactly the views, each labelled from its own entry |
| Pipeline.NoLogicalModelZeroColumns | function.py:262-264 | without a logical model the output vertex reads "Output\n(0 columns)" |
| Pipeline.FilterVertexIffFilterText | function.py:299-306 | a view gets a `_filter` vertex exactly when its filter text is not blank, labelled from the raw text; its label is never empty |
| Pipeline.InputEdgesStartAtInputs | function.py:317-347 | every input edge starts at the input name as extracted |
| Pipeline.JoinLabelOfExtractedView | function.py:320-336 | an extracted view's join label is empty exactly when it is not a `JoinView` with two inputs, and otherwise starts with its join type |
| Pipeline.KeptSourceIds | function.py:82 | an ID belongs to a kept row exactly when it belongs to a row that is first with its triple |
| Pipeline.SourceVertexIds | function.py:240-242 | an ID gets a source vertex exactly when some row carrying it is the first of the document with its triple |

## Left out

- XML text parsing and the wrap of a parse error (function.py:23-28): the input is an already parsed element tree.
- Namespace URIs (function.py:31, 91): tags and attribute keys are plain strings; `xsi:type` stands for the full-URI key.
- pandas (function.py:81, 212-213): tables are sequences of records; the final lists are kept as sequences, whose length is the column count.
- graphviz: DOT text, graph attributes and per-vertex and per-edge styling (shape, colours, font sizes, arrow sizes) are cosmetic and not modelled; the graph is the sequence of vertex and edge declarations.
- The order in which the base vertices are declared comes from iterating a Python set (function.py:240, 245); the model picks the ids in an unspecified order and states the base vertices as a set, each declared once.
- Labels are recorded as captions; `Labels.Render` gives their text. Rendering is separate from construction, so the crash of the label f-strings appears as `Render`'s precondition rather than inside `GenerateGraph`.
- `str.title()` is modelled for ASCII letters; other characters are treated as uncased.
- Fields computed and then discarded: keyMapping, measureType, measureMapping and attributeHierarchyActive (function.py:177-180, 197-200).
- app.py (the upload, display and download interface) is not part of this model.
- DeclareBaseNodes: models the intended first pass; with no data source and at least one view the analyzer as written raises KeyError at function.py:247, which `FirstPassRaises` states instead (see Findings).
- FirstPass: the same KeyError at function.py:247 is not part of its contract; `FirstPassRaises` states when it occurs.
- GenerateGraph: yields the intended graph also for a document with views and no data source, where the analyzer as written raises KeyError at function.py:247 (see Findings).
- GraphRendersIff: covers the label failures only; the first pass's KeyError is stated by `GraphProperties.FirstPassRaisesIff`.

## Findings

| source | as written | input that shows it | evidently intended | confidence | as-written member | corrected member |
|---|---|---|---|---|---|---|
| function.py:247 | a document without data sources gives a source frame with no columns, so `source_df['ID']` raises KeyError 'ID' for the first collected id | a document with one view and no `DataSource` element | every view is drawn as it is when sources exist, and the output edge is drawn | high (the frame is built from an empty list of rows); not executed | GraphProperties.SourcelessViewAsWritten | GraphProperties.SourcelessBaseNodes |
