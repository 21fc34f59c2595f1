/** The label texts of the graph (the f-strings of function.py:250-263,
    281, 303-304 and 320-336), kept apart from the graph construction.

    Two kinds of line break occur, as in the analyzer: node labels built
    with `\\n` contain the two characters backslash and `n` (DOT's line
    break escape, `DotBreak` here), while the filter and join labels contain
    a real newline character. */
module Labels {
  import opened Wrappers
  import opened Text
  import opened Model

  /** The two characters `\` and `n`. */
  const DotBreak: string := "\\n"

  /** The humanized kind of a source: DATA_BASE_TABLE reads "Table",
      CALCULATION_VIEW reads "View". */
  function SourceKindLabel(kind: string): string
  {
    Replace(Replace(kind, "DATA_BASE_TABLE", "Table"), "CALCULATION_VIEW", "View")
  }

  /** A source node's label: its name and its humanized kind. */
  function SourceLabel(row: DataSource): string
    requires row.kind.Some?
  {
    Display(row.name) + DotBreak + "(" + SourceKindLabel(row.kind.value) + ")"
  }

  /** An identifier made readable: underscores become spaces, then the text
      is title-cased. */
  function Humanize(id: string): string
  {
    Title(Replace(id, "_", " "))
  }

  /** A view node's label: its humanized id and its type without "View". */
  function ViewLabel(id: string, d: ViewDetail): string
  {
    Humanize(id) + DotBreak + "(" + Replace(d.kind, "View", "") + ")"
  }

  /** The label of the calculated-attributes annotation: one line per
      attribute, `id: formula`. */
  function CalcLabel(attrs: seq<CalcAttr>): string
  {
    "Calculated Attributes" + DotBreak +
    Join(DotBreak, seq(|attrs|, i requires 0 <= i < |attrs| =>
                         Display(attrs[i].id) + ": " + Display(attrs[i].formula)))
  }

  /** The label of the filter annotation: the filter text with every
      " and " replaced by a newline. */
  function FilterLabel(text: string): string
  {
    "(Filters)\n" + Replace(text, " and ", "\n")
  }

  /** The join type with outer, inner and text capitalized. */
  function JoinTypeLabel(joinType: string): string
  {
    Replace(Replace(Replace(joinType, "outer", "Outer"), "inner", "Inner"), "text", "Text")
  }

  /** One equality condition per join column: `left.col = right.col`. */
  function JoinConditions(jd: JoinDetail): (conds: seq<string>)
    ensures |conds| == |jd.joinColumns|
  {
    seq(|jd.joinColumns|, i requires 0 <= i < |jd.joinColumns| =>
          jd.left + "." + Display(jd.joinColumns[i]) + " = " + jd.right + "." + Display(jd.joinColumns[i]))
  }

  /** A view whose join label can be built: its join record, if any, has a
      join type (the analyzer crashes on a missing one). */
  predicate JoinLabelDefined(d: ViewDetail)
  {
    d.joinDetails != [] ==> d.joinDetails[0].joinType.Some?
  }

  /** The label every input edge of a view carries: "" without join
      details; otherwise the type line, followed, when there are join
      columns, by the conditions joined with " AND ". */
  function JoinLabel(d: ViewDetail): string
    requires JoinLabelDefined(d)
  {
    if d.joinDetails == [] then ""
    else
      var jd := d.joinDetails[0];
      var typeLine := "Type: " + JoinTypeLabel(jd.joinType.value);
      var parts := if jd.joinColumns != [] then [typeLine, Join(" AND ", JoinConditions(jd))] else [typeLine];
      Join("\n", parts)
  }

  /** The label of the output node: the number of final columns. */
  function OutputLabel(columns: nat): string
  {
    "Output" + DotBreak + "(" + NatToString(columns) + " columns)"
  }

  // ---------------------------------------------------------------------
  // captions: what a label is made from
  // ---------------------------------------------------------------------

  /** The data each label of the graph is built from; `Render` gives the
      exact text. */
  datatype Caption =
    | SourceCaption(row: DataSource)
    | ViewCaption(viewId: string, detail: ViewDetail)
    | IdCaption(nodeId: string)
    | CalcCaption(attrs: seq<CalcAttr>)
    | FilterCaption(text: string)
    | OutputCaption(columns: nat)
    | JoinCaption(view: ViewDetail)

  /** A caption whose text can be built without crashing. */
  predicate Renders(c: Caption)
  {
    match c
    case SourceCaption(row) => row.kind.Some?
    case JoinCaption(d) => JoinLabelDefined(d)
    case _ => true
  }

  /** The text of a label. */
  function Render(c: Caption): string
    requires Renders(c)
  {
    match c
    case SourceCaption(row) => SourceLabel(row)
    case ViewCaption(viewId, d) => ViewLabel(viewId, d)
    case IdCaption(nodeId) => Humanize(nodeId)
    case CalcCaption(attrs) => CalcLabel(attrs)
    case FilterCaption(text) => FilterLabel(text)
    case OutputCaption(columns) => OutputLabel(columns)
    case JoinCaption(d) => JoinLabel(d)
  }

  // ---------------------------------------------------------------------
  // properties
  // ---------------------------------------------------------------------

  /** A humanized id holds no underscore. */
  lemma HumanizeHasNoUnderscore(id: string)
    ensures '_' !in Humanize(id)
  {
    var spaced := Replace(id, "_", " ");
    ReplaceCharRemovesIt(id, '_', ' ');
    forall k | 0 <= k < |spaced| ensures Title(spaced)[k] != '_' {
      TitleFromKeepsNonLetters(spaced, false, k);
    }
  }

  /** The join label is empty exactly when there is no join record; else it
      starts with the type line and continues, only when there are join
      columns, with a newline and every `left.col = right.col` in column
      order, joined by " AND ". */
  lemma JoinLabelShape(d: ViewDetail)
    requires JoinLabelDefined(d)
    ensures JoinLabel(d) == "" <==> d.joinDetails == []
    ensures d.joinDetails != [] ==>
              var jd := d.joinDetails[0];
              var typeLine := "Type: " + JoinTypeLabel(jd.joinType.value);
              JoinLabel(d) ==
                if jd.joinColumns == [] then typeLine
                else typeLine + "\n" + Join(" AND ", JoinConditions(jd))
  {
    if d.joinDetails != [] {
      var jd := d.joinDetails[0];
      var typeLine := "Type: " + JoinTypeLabel(jd.joinType.value);
      assert typeLine[0] == 'T';
      if jd.joinColumns != [] {
        var conds := Join(" AND ", JoinConditions(jd));
        assert [typeLine, conds][1..] == [conds];
        assert Join("\n", [typeLine, conds]) == typeLine + "\n" + Join("\n", [conds]);
      }
    }
  }

  /** A non-empty join label starts with its type line. */
  lemma JoinLabelStartsWithType(d: ViewDetail)
    requires JoinLabelDefined(d) && d.joinDetails != []
    ensures var typeLine := "Type: " + JoinTypeLabel(d.joinDetails[0].joinType.value);
            |typeLine| <= |JoinLabel(d)| && JoinLabel(d)[..|typeLine|] == typeLine
  {
    JoinLabelShape(d);
  }

  /** Python's `str.replace` identity applied to the filter label: the
      filter text split on " and ", one part per line. */
  lemma FilterLabelLines(text: string)
    ensures FilterLabel(text) == "(Filters)\n" + Join("\n", Split(text, " and "))
  {
    ReplaceIsJoinOfSplit(text, " and ", "\n");
  }

  /** The two source kinds of a calculation view read "Table" and "View"
      in a source vertex's label. */
  lemma SourceKindLabelNames(row: DataSource)
    ensures row.kind == Some("DATA_BASE_TABLE") ==> SourceLabel(row) == Display(row.name) + DotBreak + "(Table)"
    ensures row.kind == Some("CALCULATION_VIEW") ==> SourceLabel(row) == Display(row.name) + DotBreak + "(View)"
  {
    var table := "DATA_BASE_TABLE";
    var view := "CALCULATION_VIEW";
    assert Replace(table, table, "Table") == "Table" by {
      assert table[..|table|] == table;
    }
    assert Replace("Table", view, "View") == "Table";
    assert Replace(view, table, "Table") == view by {
      assert view[..|table|] != table by { assert view[0] != table[0]; }
      assert view[1..][..|table|] != table by { assert view[1] != table[0]; }
      assert Replace(view[1..][1..], table, "Table") == view[1..][1..];
      assert [view[0]] + ([view[1..][0]] + view[1..][1..]) == view;
    }
    assert Replace(view, view, "View") == "View" by {
      assert view[..|view|] == view;
    }
  }

  /** Every calculated attribute has its line `id: formula` in the label
      of the calculated-attributes vertex, after the heading line. */
  lemma CalcLabelListsEveryAttr(attrs: seq<CalcAttr>, i: nat)
    requires i < |attrs|
    ensures Occurs(Display(attrs[i].id) + ": " + Display(attrs[i].formula), CalcLabel(attrs))
    ensures CalcLabel(attrs)[..|"Calculated Attributes" + DotBreak|] == "Calculated Attributes" + DotBreak
  {
    var lines := seq(|attrs|, j requires 0 <= j < |attrs| =>
                       Display(attrs[j].id) + ": " + Display(attrs[j].formula));
    var head := "Calculated Attributes" + DotBreak;
    JoinHasParts(DotBreak, lines, i);
    var pre, post :| Join(DotBreak, lines) == pre + lines[i] + post;
    assert CalcLabel(attrs) == (head + pre) + lines[i] + post;
  }

  /** The column count in the output vertex's label reads back as the
      number of final columns. */
  lemma OutputLabelCountsColumns(columns: nat)
    ensures |OutputLabel(columns)| > 18
    ensures var digits := OutputLabel(columns)[9..|OutputLabel(columns)| - 9];
            (forall k :: 0 <= k < |digits| ==> '0' <= digits[k] <= '9') &&
            DecimalValue(digits) == columns
  {
    var digits := NatToString(columns);
    var text := OutputLabel(columns);
    assert text == "Output" + DotBreak + "(" + digits + " columns)";
    assert text[9..|text| - 9] == digits;
    NatToStringRoundTrip(columns);
  }

  /** A view vertex's label starts with the view's id made readable, which
      holds no underscore. */
  lemma ViewLabelStartsHumanized(id: string, d: ViewDetail)
    ensures var h := Humanize(id);
            |h| <= |ViewLabel(id, d)| && ViewLabel(id, d)[..|h|] == h && '_' !in h
  {
    HumanizeHasNoUnderscore(id);
  }
}
