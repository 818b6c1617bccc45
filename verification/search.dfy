/** Looking records up by id and matching them against a search query. */
module Search {
  import opened Wrappers
  import opened Records
  import Text
  import Strings

  // ---------------------------------------------------------------- by id

  /** The index of the first row whose id is `id`, or `|rows|` if there is none. */
  function FirstIndex(id: string, rows: seq<Row>): (i: nat)
    ensures i <= |rows|
    ensures i < |rows| ==> rows[i].id == id
    ensures forall j :: 0 <= j < i ==> rows[j].id != id
  {
    if rows == [] then 0
    else if rows[0].id == id then 0
    else 1 + FirstIndex(id, rows[1..])
  }

  /**
   * What `findById` returns: the first row with that id, or nothing exactly
   * when no row has it.
   */
  function Lookup(id: string, rows: seq<Row>): (r: Option<Row>)
    ensures r.None? <==> forall j :: 0 <= j < |rows| ==> rows[j].id != id
    ensures r.Some? ==> r.value.id == id && r.value == rows[FirstIndex(id, rows)]
  {
    var i := FirstIndex(id, rows);
    if i < |rows| then Some(rows[i]) else None
  }

  /** `findById(id, data)`: a scan that returns at the first row with the id. */
  method FindById(id: string, data: seq<Row>) returns (r: Option<Row>)
    ensures r == Lookup(id, data)
  {
    var i := 0;
    while i < |data|
      invariant 0 <= i <= |data|
      invariant forall j :: 0 <= j < i ==> data[j].id != id
    {
      if data[i].id == id {
        return Some(data[i]);
      }
      i := i + 1;
    }
    return None;
  }

  /**
   * Lookup in a concatenation: the first part is searched first, so a row
   * there shadows any row with the same id after it.
   */
  lemma {:induction false} LookupAppend(id: string, a: seq<Row>, b: seq<Row>)
    ensures Lookup(id, a + b) == if Lookup(id, a).Some? then Lookup(id, a) else Lookup(id, b)
  {
    var i := FirstIndex(id, a);
    if i < |a| {
      assert (a + b)[i] == a[i];
      assert forall j :: 0 <= j < i ==> (a + b)[j] == a[j];
      assert FirstIndex(id, a + b) == i by { FirstIndexUnique(id, a + b, i); }
    } else {
      var k := FirstIndex(id, b);
      assert forall j :: 0 <= j < |a| ==> (a + b)[j] == a[j];
      assert forall j :: 0 <= j < |b| ==> (a + b)[|a| + j] == b[j];
      if k < |b| {
        assert FirstIndex(id, a + b) == |a| + k by { FirstIndexUnique(id, a + b, |a| + k); }
      }
    }
  }

  /** FirstIndex is the only index before which no row has the id. */
  lemma FirstIndexUnique(id: string, rows: seq<Row>, i: nat)
    requires i < |rows| && rows[i].id == id
    requires forall j :: 0 <= j < i ==> rows[j].id != id
    ensures FirstIndex(id, rows) == i
  {
  }

  // ---------------------------------------------------------------- query

  /** A row matches a lower-cased query through its id or, lower-cased, its name. */
  predicate Matches(q: string, row: Row) {
    Strings.Contains(row.id, q) || (row.name.Some? && Strings.Contains(Text.Lower(row.name.value), q))
  }

  /** Every matching row, in order. */
  function Filter(q: string, rows: seq<Row>): (r: seq<Row>)
    ensures |r| <= |rows|
    ensures forall x :: x in r ==> x in rows && Matches(q, x)
    ensures forall x :: x in rows && Matches(q, x) ==> x in r
  {
    if rows == [] then []
    else
      var last := rows[|rows| - 1];
      var init := rows[..|rows| - 1];
      assert rows == init + [last];
      Filter(q, init) + (if Matches(q, last) then [last] else [])
  }

  lemma {:induction false} FilterAppend(q: string, a: seq<Row>, b: seq<Row>)
    ensures Filter(q, a + b) == Filter(q, a) + Filter(q, b)
    decreases |b|
  {
    if b == [] {
      assert a + b == a;
    } else {
      var init := b[..|b| - 1];
      assert (a + b)[..|a + b| - 1] == a + init;
      FilterAppend(q, a, init);
    }
  }

  /** `a` is an order-preserving subsequence of `b`. */
  predicate Subsequence<T(==)>(a: seq<T>, b: seq<T>)
    decreases |b|
  {
    if a == [] then true
    else if b == [] then false
    else if a[|a| - 1] == b[|b| - 1] then Subsequence(a[..|a| - 1], b[..|b| - 1])
    else Subsequence(a, b[..|b| - 1])
  }

  /** The matching rows keep the order they have in the data. */
  lemma {:induction false} FilterIsSubsequence(q: string, rows: seq<Row>)
    ensures Subsequence(Filter(q, rows), rows)
    decreases |rows|
  {
    if rows != [] {
      var init := rows[..|rows| - 1];
      var last := rows[|rows| - 1];
      FilterIsSubsequence(q, init);
      var f := Filter(q, init);
      if Matches(q, last) {
        assert Filter(q, rows) == f + [last];
        assert (f + [last])[..|f|] == f;
      } else {
        assert Filter(q, rows) == f;
        if f != [] {
          assert Matches(q, f[|f| - 1]);
          assert f[|f| - 1] != last;
        }
      }
    }
  }

  /**
   * What `findMatches` returns: the first `max(limit, 1)` matching rows in
   * order (a limit below one still admits the first match, because the
   * limit is tested only after a row has been added).
   */
  function FirstMatches(q: string, rows: seq<Row>, limit: int): (r: seq<Row>)
  {
    var all := Filter(q, rows);
    var n := if limit < 1 then 1 else limit;
    if |all| <= n then all else all[..n]
  }

  /** Filtering one more row of the data. */
  lemma FilterStep(q: string, rows: seq<Row>, i: nat)
    requires i < |rows|
    ensures Filter(q, rows[..i + 1]) == Filter(q, rows[..i]) + if Matches(q, rows[i]) then [rows[i]] else []
  {
    assert rows[..i + 1][..i] == rows[..i];
  }

  /** The matches among the first `i` rows are a prefix of all matches. */
  lemma FilterPrefix(q: string, rows: seq<Row>, i: nat)
    requires i <= |rows|
    ensures Filter(q, rows) == Filter(q, rows[..i]) + Filter(q, rows[i..])
  {
    FilterAppend(q, rows[..i], rows[i..]);
    assert rows[..i] + rows[i..] == rows;
  }

  /** Once the first `i` rows have yielded `max(limit, 1)` matches, those are the answer. */
  lemma FirstMatchesReached(q: string, rows: seq<Row>, limit: int, i: nat)
    requires i <= |rows|
    requires var f := Filter(q, rows[..i]); f != [] && |f| >= limit && |f| <= (if limit < 1 then 1 else limit)
    ensures FirstMatches(q, rows, limit) == Filter(q, rows[..i])
  {
    FilterPrefix(q, rows, i);
  }

  /**
   * `findMatches(query, data, limit)`: scans the rows in order, collecting
   * those that match the lower-cased query, and stops as soon as `limit`
   * rows are collected.
   */
  method FindMatches(query: string, data: seq<Row>, limit: int) returns (results: seq<Row>)
    ensures results == FirstMatches(Text.Lower(query), data, limit)
  {
    var q := Text.Lower(query);
    results := [];
    var i := 0;
    while i < |data|
      invariant 0 <= i <= |data|
      invariant results == Filter(q, data[..i])
      invariant |results| < limit || results == []
    {
      var row := data[i];
      FilterStep(q, data, i);
      if Strings.Contains(row.id, q) || (row.name.Some? && Strings.Contains(Text.Lower(row.name.value), q)) {
        results := results + [row];
        if |results| >= limit {
          FirstMatchesReached(q, data, limit, i + 1);
          return;
        }
      }
      i := i + 1;
    }
    assert data[..i] == data;
  }

  // ------------------------------------------------------------ properties

  /**
   * The result of a search: never more than `max(limit, 1)` rows, every one
   * a match, in data order, and with no match skipped before the last one
   * returned.
   */
  lemma FirstMatchesSpec(q: string, rows: seq<Row>, limit: int)
    ensures var r := FirstMatches(q, rows, limit);
      && |r| <= (if limit < 1 then 1 else limit)
      && (forall x :: x in r ==> x in rows && Matches(q, x))
      && Subsequence(r, rows)
      && (|r| < limit ==> r == Filter(q, rows))
      && r == Filter(q, rows)[..|r|]
  {
    var all := Filter(q, rows);
    FilterIsSubsequence(q, rows);
    var n := if limit < 1 then 1 else limit;
    if |all| > n {
      PrefixSubsequence(all, rows, n);
    }
  }

  /** A prefix of a subsequence is a subsequence. */
  lemma {:induction false} PrefixSubsequence<T>(a: seq<T>, b: seq<T>, n: nat)
    requires Subsequence(a, b) && n <= |a|
    ensures Subsequence(a[..n], b)
    decreases |b|
  {
    if n < |a| && b != [] {
      var a' := a[..n];
      if a[|a| - 1] == b[|b| - 1] {
        PrefixSubsequence(a[..|a| - 1], b[..|b| - 1], n);
        assert a[..|a| - 1][..n] == a';
        SubsequenceExtend(a', b[..|b| - 1], b[|b| - 1]);
        assert b[..|b| - 1] + [b[|b| - 1]] == b;
      } else {
        PrefixSubsequence(a, b[..|b| - 1], n);
        SubsequenceExtend(a', b[..|b| - 1], b[|b| - 1]);
        assert b[..|b| - 1] + [b[|b| - 1]] == b;
      }
    } else if n == |a| {
      assert a[..n] == a;
    }
  }

  /** Adding an element at the end of the larger sequence keeps a subsequence. */
  lemma {:induction false} SubsequenceExtend<T>(a: seq<T>, b: seq<T>, x: T)
    requires Subsequence(a, b)
    ensures Subsequence(a, b + [x])
    decreases |b|, 1
  {
    var b' := b + [x];
    assert b'[..|b'| - 1] == b;
    if a != [] && a[|a| - 1] == x {
      // the greedy match takes x; what is left of `a` must fit in `b`
      SubsequenceDropLast(a, b);
    }
  }

  /** Dropping the last element of a subsequence keeps a subsequence. */
  lemma {:induction false} SubsequenceDropLast<T>(a: seq<T>, b: seq<T>)
    requires a != [] && Subsequence(a, b)
    ensures Subsequence(a[..|a| - 1], b)
    decreases |b|, 0
  {
    var a' := a[..|a| - 1];
    if b != [] {
      if a[|a| - 1] == b[|b| - 1] {
        if a' != [] {
          SubsequenceExtend(a', b[..|b| - 1], b[|b| - 1]);
          assert b[..|b| - 1] + [b[|b| - 1]] == b;
        }
      } else {
        SubsequenceDropLast(a, b[..|b| - 1]);
        if a' != [] {
          SubsequenceExtend(a', b[..|b| - 1], b[|b| - 1]);
          assert b[..|b| - 1] + [b[|b| - 1]] == b;
        }
      }
    }
  }

  /** The empty query matches every row, so the result is a prefix of the data. */
  lemma {:induction false} EmptyQueryIsPrefix(rows: seq<Row>, limit: int)
    ensures var n := if limit < 1 then 1 else limit;
      FirstMatches("", rows, limit) == if |rows| <= n then rows else rows[..n]
  {
    FilterAll(rows);
  }

  lemma {:induction false} FilterAll(rows: seq<Row>)
    ensures Filter("", rows) == rows
    decreases |rows|
  {
    if rows != [] {
      FilterAll(rows[..|rows| - 1]);
      Strings.EmptyIsContained(rows[|rows| - 1].id);
      assert rows[..|rows| - 1] + [rows[|rows| - 1]] == rows;
    }
  }
}
