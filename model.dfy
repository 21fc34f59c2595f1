/** The record the extractor produces and the graph builder consumes: general
    information, the deduplicated data-source table, the insertion-ordered
    table of calculation views and the final schema. Every value that the
    extractor reads with `attrib.get` and no default is optional. */
module Model {
  import opened Wrappers

  datatype General = General(
    id: Option<string>,
    dataCategory: Option<string>,
    visibility: Option<string>,
    scenarioType: Option<string>,
    outputViewType: Option<string>,
    changedAt: Option<string>)

  /** One row of the data-source table: ID, Name, Type, Schema. */
  datatype DataSource = DataSource(
    id: Option<string>,
    name: Option<string>,
    kind: Option<string>,
    schema: Option<string>)

  /** A derived column of a view: id, datatype and formula text. */
  datatype CalcAttr = CalcAttr(
    id: Option<string>,
    dataType: Option<string>,
    formula: Option<string>)

  /** The join record synthesized for a join view with exactly two inputs. */
  datatype JoinDetail = JoinDetail(
    joinType: Option<string>,
    left: string,
    right: string,
    joinAttribute: Option<string>,
    joinColumns: seq<Option<string>>)

  /** The detail record kept for one calculation view. */
  datatype ViewDetail = ViewDetail(
    kind: string,
    inputs: seq<string>,
    filter: Option<string>,
    joinAttributes: seq<Option<string>>,
    joinDetails: seq<JoinDetail>,
    calcAttrs: seq<CalcAttr>)

  /** One entry of the insertion-ordered view table (a Python dict). */
  datatype ViewEntry = ViewEntry(id: Option<string>, detail: ViewDetail)

  datatype Dimension = Dimension(id: Option<string>, description: string)

  datatype Measure = Measure(id: Option<string>, aggregation: Option<string>, description: string)

  datatype Analysis = Analysis(
    general: General,
    sources: seq<DataSource>,
    views: seq<ViewEntry>,
    attributes: seq<Dimension>,
    measures: seq<Measure>)

  // ---------------------------------------------------------------------
  // the view table as an insertion-ordered dictionary
  // ---------------------------------------------------------------------

  /** The keys of the table, in insertion order. */
  function Keys(vs: seq<ViewEntry>): (ks: seq<Option<string>>)
    ensures |ks| == |vs|
    ensures forall i :: 0 <= i < |vs| ==> ks[i] == vs[i].id
  {
    if vs == [] then [] else [vs[0].id] + Keys(vs[1..])
  }

  /** No key occurs twice, as in any dictionary. */
  predicate DistinctKeys(vs: seq<ViewEntry>)
  {
    var ks := Keys(vs);
    forall i, j :: 0 <= i < j < |ks| ==> ks[i] != ks[j]
  }

  /** `d[k]`, or nothing when `k` is not a key. */
  function Lookup(vs: seq<ViewEntry>, k: Option<string>): (r: Option<ViewDetail>)
    ensures r.None? <==> k !in Keys(vs)
  {
    if vs == [] then None
    else if vs[0].id == k then Some(vs[0].detail)
    else Lookup(vs[1..], k)
  }

  /** `d[k] = v`: an existing key keeps its position and takes the new
      value; a new key is appended at the end. */
  function Put(vs: seq<ViewEntry>, k: Option<string>, v: ViewDetail): (r: seq<ViewEntry>)
  {
    if vs == [] then [ViewEntry(k, v)]
    else if vs[0].id == k then [ViewEntry(k, v)] + vs[1..]
    else [vs[0]] + Put(vs[1..], k, v)
  }

  /** Assignment changes the key order only by appending a key that was
      not there. */
  lemma {:induction false} PutKeys(vs: seq<ViewEntry>, k: Option<string>, v: ViewDetail)
    ensures k in Keys(vs) ==> Keys(Put(vs, k, v)) == Keys(vs)
    ensures k !in Keys(vs) ==> Keys(Put(vs, k, v)) == Keys(vs) + [k]
    decreases |vs|
  {
    if vs == [] {
    } else if vs[0].id == k {
      assert Keys(vs) == [k] + Keys(vs[1..]);
      assert Put(vs, k, v)[1..] == vs[1..];
    } else {
      var p := Put(vs[1..], k, v);
      PutKeys(vs[1..], k, v);
      assert Put(vs, k, v) == [vs[0]] + p;
      assert Keys(vs) == [vs[0].id] + Keys(vs[1..]);
      assert Keys([vs[0]] + p) == [vs[0].id] + Keys(p) by {
        assert ([vs[0]] + p)[1..] == p;
      }
    }
  }

  /** Assigning a key that is not there appends one entry. */
  lemma {:induction false} PutNewKeyAppends(vs: seq<ViewEntry>, k: Option<string>, v: ViewDetail)
    requires k !in Keys(vs)
    ensures Put(vs, k, v) == vs + [ViewEntry(k, v)]
    decreases |vs|
  {
    if vs != [] {
      assert Keys(vs) == [vs[0].id] + Keys(vs[1..]);
      PutNewKeyAppends(vs[1..], k, v);
      assert vs == [vs[0]] + vs[1..];
    }
  }

  /** Assignment makes `k` map to `v` and leaves every other key alone. */
  lemma {:induction false} PutLookup(vs: seq<ViewEntry>, k: Option<string>, v: ViewDetail, k': Option<string>)
    ensures Lookup(Put(vs, k, v), k') == if k' == k then Some(v) else Lookup(vs, k')
    decreases |vs|
  {
    if vs == [] {
    } else if vs[0].id == k {
      assert Put(vs, k, v)[1..] == vs[1..];
    } else {
      PutLookup(vs[1..], k, v, k');
      assert Put(vs, k, v)[1..] == Put(vs[1..], k, v);
    }
  }

  /** Assignment keeps the keys of a dictionary distinct. */
  lemma PutKeepsKeysDistinct(vs: seq<ViewEntry>, k: Option<string>, v: ViewDetail)
    requires DistinctKeys(vs)
    ensures DistinctKeys(Put(vs, k, v))
  {
    PutKeys(vs, k, v);
  }

  /** In a table with distinct keys, looking up the key of an entry finds
      that entry's value. */
  lemma {:induction false} LookupFindsEntry(vs: seq<ViewEntry>, i: nat)
    requires i < |vs| && DistinctKeys(vs)
    ensures Lookup(vs, vs[i].id) == Some(vs[i].detail)
    decreases i
  {
    if i > 0 {
      assert Keys(vs)[0] != Keys(vs)[i];
      assert DistinctKeys(vs[1..]) by {
        forall a, b | 0 <= a < b < |vs[1..]| ensures Keys(vs[1..])[a] != Keys(vs[1..])[b] {
          assert Keys(vs)[a + 1] != Keys(vs)[b + 1];
        }
      }
      LookupFindsEntry(vs[1..], i - 1);
    }
  }
}
