/** Queries on tables held as sequences of rows: selecting the rows that match, and summing a column. */
module Rows {

  /** The rows that match, in table order. */
  function Filter<T>(rows: seq<T>, keep: T -> bool): seq<T> {
    if rows == [] then []
    else
      var n := |rows| - 1;
      var before := Filter(rows[..n], keep);
      if keep(rows[n]) then before + [rows[n]] else before
  }

  lemma {:induction false} FilterMember<T>(rows: seq<T>, keep: T -> bool, x: T)
    ensures x in Filter(rows, keep) <==> x in rows && keep(x)
  {
    if rows != [] {
      var n := |rows| - 1;
      assert rows == rows[..n] + [rows[n]];
      FilterMember(rows[..n], keep, x);
    }
  }

  lemma FilterMembers<T>(rows: seq<T>, keep: T -> bool)
    ensures forall x :: x in Filter(rows, keep) <==> x in rows && keep(x)
  {
    forall x ensures x in Filter(rows, keep) <==> x in rows && keep(x) {
      FilterMember(rows, keep, x);
    }
  }

  lemma {:induction false} FilterShorter<T>(rows: seq<T>, keep: T -> bool)
    ensures |Filter(rows, keep)| <= |rows|
  {
    if rows != [] {
      FilterShorter(rows[..|rows| - 1], keep);
    }
  }

  /** The sum of a column over the rows. */
  function Sum<T>(rows: seq<T>, column: T -> real): real {
    if rows == [] then 0.0 else Sum(rows[..|rows| - 1], column) + column(rows[|rows| - 1])
  }

  lemma {:induction false} FilterConcat<T>(a: seq<T>, b: seq<T>, keep: T -> bool)
    ensures Filter(a + b, keep) == Filter(a, keep) + Filter(b, keep)
    decreases |b|
  {
    if b == [] {
      assert a + b == a;
    } else {
      var n := |b| - 1;
      assert (a + b)[..|a + b| - 1] == a + b[..n];
      FilterConcat(a, b[..n], keep);
    }
  }

  lemma SumSnoc<T>(rows: seq<T>, x: T, column: T -> real)
    ensures Sum(rows + [x], column) == Sum(rows, column) + column(x)
  {
    assert (rows + [x])[..|rows|] == rows;
  }

  /** Rows that do not match can be dropped first. */
  lemma {:induction false} FilterTwice<T>(rows: seq<T>, first: T -> bool, keep: T -> bool)
    requires forall x | x in rows && keep(x) :: first(x)
    ensures Filter(Filter(rows, first), keep) == Filter(rows, keep)
  {
    if rows != [] {
      var n := |rows| - 1;
      var x := rows[n];
      FilterTwice(rows[..n], first, keep);
      if first(x) {
        var before := Filter(rows[..n], first);
        assert (before + [x])[..|before|] == before;
      }
    }
  }

  lemma {:induction false} FilterSame<T>(rows: seq<T>, keep: T -> bool, keep': T -> bool)
    requires forall x | x in rows :: keep(x) == keep'(x)
    ensures Filter(rows, keep) == Filter(rows, keep')
  {
    if rows != [] {
      FilterSame(rows[..|rows| - 1], keep, keep');
    }
  }

  lemma {:induction false} FilterAll<T>(rows: seq<T>, keep: T -> bool)
    requires forall x | x in rows :: keep(x)
    ensures Filter(rows, keep) == rows
  {
    if rows != [] {
      FilterAll(rows[..|rows| - 1], keep);
    }
  }

  lemma {:induction false} FilterNone<T>(rows: seq<T>, keep: T -> bool)
    requires forall x | x in rows :: !keep(x)
    ensures Filter(rows, keep) == []
  {
    if rows != [] {
      FilterNone(rows[..|rows| - 1], keep);
    }
  }

  /** Changing or removing a row that matches neither before nor after changes no answer. */
  lemma FilterSplice<T>(rows: seq<T>, i: nat, middle: seq<T>, keep: T -> bool)
    requires i < |rows| && !keep(rows[i]) && forall x | x in middle :: !keep(x)
    ensures Filter(rows[..i] + middle + rows[i + 1..], keep) == Filter(rows, keep)
  {
    assert rows == rows[..i] + [rows[i]] + rows[i + 1..];
    FilterConcat(rows[..i] + [rows[i]], rows[i + 1..], keep);
    FilterConcat(rows[..i], [rows[i]], keep);
    FilterConcat(rows[..i] + middle, rows[i + 1..], keep);
    FilterConcat(rows[..i], middle, keep);
    FilterNone(middle, keep);
    FilterNone([rows[i]], keep);
  }

  lemma {:induction false} SumConcat<T>(a: seq<T>, b: seq<T>, column: T -> real)
    ensures Sum(a + b, column) == Sum(a, column) + Sum(b, column)
    decreases |b|
  {
    if b == [] {
      assert a + b == a;
    } else {
      var n := |b| - 1;
      assert (a + b)[..|a + b| - 1] == a + b[..n];
      SumConcat(a, b[..n], column);
    }
  }

  /** Splitting the matching rows in two splits their sum. */
  lemma {:induction false} SumSplit<T>(rows: seq<T>, whole: T -> bool, left: T -> bool, right: T -> bool,
      column: T -> real)
    requires forall x | x in rows :: whole(x) == (left(x) || right(x)) && !(left(x) && right(x))
    ensures Sum(Filter(rows, whole), column) == Sum(Filter(rows, left), column) + Sum(Filter(rows, right), column)
  {
    if rows != [] {
      var n := |rows| - 1;
      SumSplit(rows[..n], whole, left, right, column);
      SumSnoc(Filter(rows[..n], whole), rows[n], column);
      SumSnoc(Filter(rows[..n], left), rows[n], column);
      SumSnoc(Filter(rows[..n], right), rows[n], column);
    }
  }

  /** Rows whose column is zero do not count. */
  lemma {:induction false} SumFilter<T>(rows: seq<T>, keep: T -> bool, column: T -> real)
    requires forall x | x in rows && !keep(x) :: column(x) == 0.0
    ensures Sum(Filter(rows, keep), column) == Sum(rows, column)
  {
    if rows != [] {
      var n := |rows| - 1;
      var x := rows[n];
      SumFilter(rows[..n], keep, column);
      if keep(x) {
        SumSnoc(Filter(rows[..n], keep), x, column);
      }
    }
  }

  lemma {:induction false} SumSame<T>(rows: seq<T>, column: T -> real, column': T -> real)
    requires forall x | x in rows :: column(x) == column'(x)
    ensures Sum(rows, column) == Sum(rows, column')
  {
    if rows != [] {
      SumSame(rows[..|rows| - 1], column, column');
    }
  }

  lemma {:induction false} SumPlus<T>(rows: seq<T>, a: T -> real, b: T -> real, both: T -> real)
    requires forall x | x in rows :: both(x) == a(x) + b(x)
    ensures Sum(rows, both) == Sum(rows, a) + Sum(rows, b)
  {
    if rows != [] {
      SumPlus(rows[..|rows| - 1], a, b, both);
    }
  }

  lemma {:induction false} SumBounds<T>(rows: seq<T>, column: T -> real, top: real)
    requires forall x | x in rows :: 0.0 <= column(x) <= top
    ensures 0.0 <= Sum(rows, column) <= top * |rows| as real
  {
    if rows != [] {
      var n := |rows| - 1;
      SumBounds(rows[..n], column, top);
      assert top * |rows| as real == top * n as real + top;
    }
  }

  lemma {:induction false} SumFilterAtMost<T>(rows: seq<T>, keep: T -> bool, column: T -> real)
    requires forall x | x in rows :: 0.0 <= column(x)
    ensures 0.0 <= Sum(Filter(rows, keep), column) <= Sum(rows, column)
  {
    if rows != [] {
      var n := |rows| - 1;
      var x := rows[n];
      SumFilterAtMost(rows[..n], keep, column);
      if keep(x) {
        SumSnoc(Filter(rows[..n], keep), x, column);
      }
    }
  }

  lemma SumReplace<T>(rows: seq<T>, i: nat, x: T, column: T -> real)
    requires i < |rows|
    ensures Sum(rows[i := x], column) == Sum(rows, column) - column(rows[i]) + column(x)
  {
    var before, after := rows[..i], rows[i + 1..];
    assert rows == (before + [rows[i]]) + after && rows[i := x] == (before + [x]) + after;
    SumConcat(before + [rows[i]], after, column);
    SumConcat(before + [x], after, column);
    SumSnoc(before, rows[i], column);
    SumSnoc(before, x, column);
  }

  lemma SumFront<T>(rows: seq<T>, column: T -> real)
    requires rows != []
    ensures Sum(rows, column) == column(rows[0]) + Sum(rows[1..], column)
  {
    assert rows == [rows[0]] + rows[1..];
    SumConcat([rows[0]], rows[1..], column);
    SumSnoc([], rows[0], column);
    assert [] + [rows[0]] == [rows[0]];
  }

  lemma {:induction false} SumZero<T>(rows: seq<T>, column: T -> real)
    requires forall x | x in rows :: column(x) == 0.0
    ensures Sum(rows, column) == 0.0
  {
    if rows != [] {
      SumZero(rows[..|rows| - 1], column);
    }
  }

  lemma SomeMember<T>(s: set<T>) returns (x: T)
    requires s != {}
    ensures x in s
  {
    x :| x in s;
  }
}
