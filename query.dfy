/**
 * The one query shape the handlers issue against a table:
 * `SELECT * FROM table WHERE keep ORDER BY le`. A table is a map from
 * primary key to row; the store is free to order rows that tie.
 */
module Query {

  /** An ORDER BY clause: every two rows compare, and the order is transitive. Ties are allowed. */
  ghost predicate TotalPreorder<T(!new)>(le: (T, T) -> bool) {
    && (forall x, y :: le(x, y) || le(y, x))
    && (forall x, y, z :: le(x, y) && le(y, z) ==> le(x, z))
  }

  predicate Ordered<T>(rows: seq<T>, le: (T, T) -> bool) {
    forall i, j :: 0 <= i < j < |rows| ==> le(rows[i], rows[j])
  }

  /** Every row stores its own primary key. */
  predicate KeyedBy<K, T>(table: map<K, T>, keyOf: T -> K) {
    forall k :: k in table ==> keyOf(table[k]) == k
  }

  /**
   * `rows` is a result of the query: exactly the rows of `table` that
   * satisfy `keep`, each once, in the order `le`.
   */
  ghost predicate IsSelection<K, T>(table: map<K, T>, keyOf: T -> K, keep: T -> bool,
                                   le: (T, T) -> bool, rows: seq<T>)
  {
    && (forall i :: 0 <= i < |rows| ==>
          keyOf(rows[i]) in table && table[keyOf(rows[i])] == rows[i] && keep(rows[i]))
    && (forall k :: k in table && keep(table[k]) ==> table[k] in rows)
    && (forall i, j :: 0 <= i < j < |rows| ==> keyOf(rows[i]) != keyOf(rows[j]))
    && Ordered(rows, le)
  }

  /** A query over rows none of which match returns nothing. */
  lemma SelectionOfNoMatch<K, T>(table: map<K, T>, keyOf: T -> K, keep: T -> bool,
                                 le: (T, T) -> bool, rows: seq<T>)
    requires IsSelection(table, keyOf, keep, le, rows)
    requires forall k :: k in table ==> !keep(table[k])
    ensures rows == []
  {
    SelectedRowsMatch(table, keyOf, keep, le, rows);
  }

  /** Every row a query returns is a stored row that satisfies its condition. */
  lemma SelectedRowsMatch<K, T>(table: map<K, T>, keyOf: T -> K, keep: T -> bool,
                                le: (T, T) -> bool, rows: seq<T>)
    requires IsSelection(table, keyOf, keep, le, rows)
    ensures forall x :: x in rows ==> keyOf(x) in table && table[keyOf(x)] == x && keep(x)
    ensures rows != [] ==> exists k :: k in table && keep(table[k])
  {
    if rows != [] {
      assert keyOf(rows[0]) in table && keep(table[keyOf(rows[0])]);
    }
  }

  /** Places `x` after every row that may precede it, keeping `rows` ordered. */
  method InsertOrdered<T(!new)>(rows: seq<T>, x: T, le: (T, T) -> bool) returns (r: seq<T>, p: nat)
    requires TotalPreorder(le)
    requires Ordered(rows, le)
    ensures p <= |rows| && r == rows[..p] + [x] + rows[p..]
    ensures Ordered(r, le)
  {
    p := 0;
    while p < |rows| && le(rows[p], x)
      invariant p <= |rows|
      invariant forall i :: 0 <= i < p ==> le(rows[i], x)
    {
      p := p + 1;
    }
    r := rows[..p] + [x] + rows[p..];
    assert |r| == |rows| + 1;
    assert forall i :: 0 <= i < p ==> r[i] == rows[i];
    assert r[p] == x;
    assert forall i :: p < i < |r| ==> r[i] == rows[i - 1];
    assert p < |rows| ==> le(x, rows[p]);
    forall i, j | 0 <= i < j < |r|
      ensures le(r[i], r[j])
    {
      if j < p {
        assert le(rows[i], rows[j]);
      } else if j == p {
        assert le(rows[i], x);
      } else if i < p {
        assert le(rows[i], rows[j - 1]);
      } else if i == p {
        if j - 1 > p {
          assert le(rows[p], rows[j - 1]);
        }
      } else {
        assert le(rows[i - 1], rows[j - 1]);
      }
    }
  }

  /**
   * The loop invariant of Select: `rows` is the query's answer over the
   * keys already visited (those outside `todo`).
   */
  ghost predicate SelectedSoFar<K, T>(table: map<K, T>, keyOf: T -> K, keep: T -> bool,
                                     le: (T, T) -> bool, rows: seq<T>, todo: set<K>)
  {
    && todo <= table.Keys
    && (forall i :: 0 <= i < |rows| ==>
          keyOf(rows[i]) in table && table[keyOf(rows[i])] == rows[i] &&
          keep(rows[i]) && keyOf(rows[i]) !in todo)
    && (forall k :: k in table && k !in todo && keep(table[k]) ==> table[k] in rows)
    && (forall i, j :: 0 <= i < j < |rows| ==> keyOf(rows[i]) != keyOf(rows[j]))
    && Ordered(rows, le)
  }

  /** Visiting key `k` and inserting its row (when it matches) keeps the invariant. */
  lemma {:induction false} VisitKeepsSelection<K, T>(table: map<K, T>, keyOf: T -> K, keep: T -> bool,
                                                     le: (T, T) -> bool, rows: seq<T>, todo: set<K>,
                                                     k: K, p: nat, rows': seq<T>)
    requires KeyedBy(table, keyOf)
    requires SelectedSoFar(table, keyOf, keep, le, rows, todo)
    requires k in todo
    requires keep(table[k]) ==> p <= |rows| && rows' == rows[..p] + [table[k]] + rows[p..] && Ordered(rows', le)
    requires !keep(table[k]) ==> rows' == rows
    ensures SelectedSoFar(table, keyOf, keep, le, rows', todo - {k})
  {
    if keep(table[k]) {
      assert forall i :: 0 <= i < p ==> rows'[i] == rows[i];
      assert rows'[p] == table[k] && keyOf(rows'[p]) == k;
      assert forall i :: p < i < |rows'| ==> rows'[i] == rows[i - 1];
      assert forall x :: x in rows ==> x in rows';
      forall i, j | 0 <= i < j < |rows'|
        ensures keyOf(rows'[i]) != keyOf(rows'[j])
      {
        if i < p && j > p {
          assert keyOf(rows[i]) != keyOf(rows[j - 1]);
        } else if i > p {
          assert keyOf(rows[i - 1]) != keyOf(rows[j - 1]);
        }
      }
    }
  }

  /** Runs the query: visits every key once and inserts each matching row in order. */
  method Select<K, T(!new)>(table: map<K, T>, keyOf: T -> K, keep: T -> bool, le: (T, T) -> bool)
    returns (rows: seq<T>)
    requires KeyedBy(table, keyOf)
    requires TotalPreorder(le)
    ensures IsSelection(table, keyOf, keep, le, rows)
  {
    rows := [];
    var todo := table.Keys;
    while todo != {}
      invariant SelectedSoFar(table, keyOf, keep, le, rows, todo)
      decreases todo
    {
      var k :| k in todo;
      var p := 0;
      var next := rows;
      if keep(table[k]) {
        next, p := InsertOrdered(rows, table[k], le);
      }
      VisitKeepsSelection(table, keyOf, keep, le, rows, todo, k, p, next);
      rows, todo := next, todo - {k};
    }
  }
}
