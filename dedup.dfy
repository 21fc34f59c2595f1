/** Deduplication of the data-source table on (Type, Name, Schema), as
    pandas' `drop_duplicates(subset=['Type', 'Name', 'Schema'])` does it with
    its default `keep='first'`: the first row of each triple stays, in input
    order, and every later row with the same triple is dropped. */
module Dedup {
  import opened Wrappers
  import opened Model

  /** The triple a row is deduplicated on: its Type, Name and Schema. */
  type Key = (Option<string>, Option<string>, Option<string>)

  function KeyOf(r: DataSource): Key
  {
    (r.kind, r.name, r.schema)
  }

  /** The triples that occur in a table. */
  function KeySet(rows: seq<DataSource>): set<Key>
  {
    set r | r in rows :: KeyOf(r)
  }

  /** No two rows of the table share a triple. */
  predicate UniqueKeys(rows: seq<DataSource>)
  {
    forall i, j :: 0 <= i < j < |rows| ==> KeyOf(rows[i]) != KeyOf(rows[j])
  }

  /** Keep-first deduplication: the table without every row whose triple an
      earlier row already has. Every triple of the input is still
      represented, and by exactly one row. */
  function DropDuplicates(rows: seq<DataSource>): (kept: seq<DataSource>)
    ensures KeySet(kept) == KeySet(rows)
    ensures UniqueKeys(kept)
  {
    if rows == [] then []
    else
      var front := DropDuplicates(rows[..|rows| - 1]);
      var last := rows[|rows| - 1];
      assert rows == rows[..|rows| - 1] + [last];
      assert KeySet(rows) == KeySet(rows[..|rows| - 1]) + {KeyOf(last)};
      if KeyOf(last) in KeySet(front) then front
      else
        assert KeySet(front + [last]) == KeySet(front) + {KeyOf(last)};
        front + [last]
  }

  // ---------------------------------------------------------------------
  // order: the result is a subsequence of the input
  // ---------------------------------------------------------------------

  /** `a` can be obtained from `b` by deleting elements. */
  predicate IsSubsequence<T(==)>(a: seq<T>, b: seq<T>)
    decreases |b|
  {
    if a == [] then true
    else if b == [] then false
    else if a[|a| - 1] == b[|b| - 1] then IsSubsequence(a[..|a| - 1], b[..|b| - 1])
    else IsSubsequence(a, b[..|b| - 1])
  }

  lemma {:induction false} SubsequenceSnoc<T>(a: seq<T>, b: seq<T>, x: T)
    requires IsSubsequence(a, b)
    ensures IsSubsequence(a, b + [x])
    decreases |a| + |b| + 1
  {
    assert (b + [x])[..|b|] == b;
    if a != [] && a[|a| - 1] == x {
      SubsequenceDropLast(a, b);
    }
  }

  lemma {:induction false} SubsequenceDropLast<T>(a: seq<T>, b: seq<T>)
    requires a != [] && IsSubsequence(a, b)
    ensures IsSubsequence(a[..|a| - 1], b)
    decreases |a| + |b|
  {
    var b' := b[..|b| - 1];
    assert b == b' + [b[|b| - 1]];
    if a[|a| - 1] == b[|b| - 1] {
      SubsequenceSnoc(a[..|a| - 1], b', b[|b| - 1]);
    } else {
      SubsequenceDropLast(a, b');
      SubsequenceSnoc(a[..|a| - 1], b', b[|b| - 1]);
    }
  }

  /** Deduplication only deletes rows: the kept rows appear in the input,
      in the same order. */
  lemma {:induction false} DropDuplicatesIsSubsequence(rows: seq<DataSource>)
    ensures IsSubsequence(DropDuplicates(rows), rows)
  {
    if rows != [] {
      var front := rows[..|rows| - 1];
      var last := rows[|rows| - 1];
      DropDuplicatesIsSubsequence(front);
      assert rows == front + [last];
      var kept := DropDuplicates(front);
      if KeyOf(last) in KeySet(kept) {
        SubsequenceSnoc(kept, front, last);
      } else {
        assert (kept + [last])[..|kept|] == kept;
      }
    }
  }

  // ---------------------------------------------------------------------
  // which row is kept: the first one with its triple
  // ---------------------------------------------------------------------

  /** The first row of the table with the given triple. */
  function FirstWithKey(rows: seq<DataSource>, k: Key): (r: Option<DataSource>)
    ensures r.None? <==> k !in KeySet(rows)
    ensures r.Some? ==> r.value in rows && KeyOf(r.value) == k
  {
    if rows == [] then None
    else if KeyOf(rows[0]) == k then Some(rows[0])
    else
      assert KeySet(rows) == {KeyOf(rows[0])} + KeySet(rows[1..]) by {
        assert rows == [rows[0]] + rows[1..];
      }
      FirstWithKey(rows[1..], k)
  }

  lemma {:induction false} FirstWithKeySnoc(rows: seq<DataSource>, x: DataSource, k: Key)
    ensures FirstWithKey(rows + [x], k) ==
            if FirstWithKey(rows, k).Some? then FirstWithKey(rows, k)
            else if KeyOf(x) == k then Some(x) else None
    decreases |rows|
  {
    if rows != [] && KeyOf(rows[0]) != k {
      assert (rows + [x])[1..] == rows[1..] + [x];
      FirstWithKeySnoc(rows[1..], x, k);
    }
  }

  /** Every kept row is the first row of the input with its triple. */
  lemma {:induction false} DropDuplicatesKeepsFirst(rows: seq<DataSource>)
    ensures forall r :: r in DropDuplicates(rows) ==> FirstWithKey(rows, KeyOf(r)) == Some(r)
  {
    if rows != [] {
      var front := rows[..|rows| - 1];
      var last := rows[|rows| - 1];
      assert rows == front + [last];
      DropDuplicatesKeepsFirst(front);
      var kept := DropDuplicates(front);
      forall r | r in DropDuplicates(rows) ensures FirstWithKey(rows, KeyOf(r)) == Some(r) {
        FirstWithKeySnoc(front, last, KeyOf(r));
        if r !in kept {
          assert r == last;
          assert KeyOf(last) !in KeySet(front);
        }
      }
    }
  }

  /** A row is kept exactly when it is the first row of the input with its
      triple. */
  lemma KeptIffFirst(rows: seq<DataSource>, r: DataSource)
    ensures r in DropDuplicates(rows) <==> FirstWithKey(rows, KeyOf(r)) == Some(r)
  {
    DropDuplicatesKeepsFirst(rows);
    var kept := DropDuplicates(rows);
    if FirstWithKey(rows, KeyOf(r)) == Some(r) {
      assert KeyOf(r) in KeySet(kept);
      var r' :| r' in kept && KeyOf(r') == KeyOf(r);
      assert FirstWithKey(rows, KeyOf(r')) == Some(r');
    }
  }

  // ---------------------------------------------------------------------
  // idempotence
  // ---------------------------------------------------------------------

  /** A table whose triples are already unique is left as it is. */
  lemma {:induction false} DropDuplicatesOfUnique(rows: seq<DataSource>)
    requires UniqueKeys(rows)
    ensures DropDuplicates(rows) == rows
  {
    if rows != [] {
      var front := rows[..|rows| - 1];
      var last := rows[|rows| - 1];
      assert UniqueKeys(front);
      DropDuplicatesOfUnique(front);
      assert KeyOf(last) !in KeySet(front) by {
        forall r | r in front ensures KeyOf(r) != KeyOf(last) {
          var i :| 0 <= i < |front| && front[i] == r;
          assert rows[i] == r;
        }
      }
      assert rows == front + [last];
    }
  }

  /** Deduplicating twice is deduplicating once. */
  lemma DropDuplicatesIdempotent(rows: seq<DataSource>)
    ensures DropDuplicates(DropDuplicates(rows)) == DropDuplicates(rows)
  {
    DropDuplicatesOfUnique(DropDuplicates(rows));
  }
}
