/** Sums over the rows of a table, taken in insertion order. */
module Sums {

  function SumBy<T>(rows: seq<T>, f: T -> int): int {
    if rows == [] then 0 else SumBy(rows[..|rows| - 1], f) + f(rows[|rows| - 1])
  }

  lemma SumAppend<T>(rows: seq<T>, row: T, f: T -> int)
    ensures SumBy(rows + [row], f) == SumBy(rows, f) + f(row)
  {
    assert (rows + [row])[..|rows|] == rows;
  }

  /** Replacing one row moves the sum by the difference of the two rows. */
  lemma {:induction false} SumUpdate<T>(rows: seq<T>, i: nat, row: T, f: T -> int)
    requires i < |rows|
    ensures SumBy(rows[i := row], f) == SumBy(rows, f) - f(rows[i]) + f(row)
  {
    var last := |rows| - 1;
    if i == last {
      assert rows[i := row][..last] == rows[..last];
    } else {
      assert rows[i := row][..last] == rows[..last][i := row];
      SumUpdate(rows[..last], i, row, f);
    }
  }

  /** Row-by-row equal values (possibly of two different functions) give equal sums. */
  lemma {:induction false} SumCongruent<T>(rows: seq<T>, others: seq<T>, f: T -> int, g: T -> int)
    requires |rows| == |others|
    requires forall i :: 0 <= i < |rows| ==> f(rows[i]) == g(others[i])
    ensures SumBy(rows, f) == SumBy(others, g)
  {
    if rows != [] {
      var last := |rows| - 1;
      SumCongruent(rows[..last], others[..last], f, g);
    }
  }

  lemma {:induction false} SumSplit<T>(rows: seq<T>, whole: T -> int, f: T -> int, g: T -> int)
    requires forall i :: 0 <= i < |rows| ==> whole(rows[i]) == f(rows[i]) + g(rows[i])
    ensures SumBy(rows, whole) == SumBy(rows, f) + SumBy(rows, g)
  {
    if rows != [] {
      SumSplit(rows[..|rows| - 1], whole, f, g);
    }
  }

  lemma {:induction false} SumAtMost<T>(rows: seq<T>, f: T -> int, g: T -> int)
    requires forall i :: 0 <= i < |rows| ==> f(rows[i]) <= g(rows[i])
    ensures SumBy(rows, f) <= SumBy(rows, g)
  {
    if rows != [] {
      SumAtMost(rows[..|rows| - 1], f, g);
    }
  }

  /** A single row never exceeds the sum of a column without negative values. */
  lemma {:induction false} RowAtMostSum<T>(rows: seq<T>, i: nat, f: T -> int)
    requires i < |rows|
    requires forall k :: 0 <= k < |rows| ==> f(rows[k]) >= 0
    ensures 0 <= f(rows[i]) <= SumBy(rows, f)
  {
    var last := |rows| - 1;
    if i < last {
      RowAtMostSum(rows[..last], i, f);
    } else {
      SumNonNegative(rows[..last], f);
    }
  }

  lemma {:induction false} SumNonNegative<T>(rows: seq<T>, f: T -> int)
    requires forall k :: 0 <= k < |rows| ==> f(rows[k]) >= 0
    ensures SumBy(rows, f) >= 0
  {
    if rows != [] {
      SumNonNegative(rows[..|rows| - 1], f);
    }
  }

  lemma {:induction false} SumZero<T>(rows: seq<T>, f: T -> int)
    requires forall k :: 0 <= k < |rows| ==> f(rows[k]) == 0
    ensures SumBy(rows, f) == 0
  {
    if rows != [] {
      SumZero(rows[..|rows| - 1], f);
    }
  }

  lemma {:induction false} SumConcat<T>(a: seq<T>, b: seq<T>, f: T -> int)
    ensures SumBy(a + b, f) == SumBy(a, f) + SumBy(b, f)
  {
    if b == [] {
      assert a + b == a;
    } else {
      var last := |b| - 1;
      assert (a + b)[..|a + b| - 1] == a + b[..last];
      SumConcat(a, b[..last], f);
    }
  }
}
