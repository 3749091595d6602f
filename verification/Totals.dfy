/**
 Sums of a measure over the rows of a store.

 The reference stores add amounts up by walking a `Map`. The order of that walk never
 matters to the answer, and these lemmas are what lets a loop visit the rows in any order.
 */
module Totals {

  ghost function Total<K, V>(rows: map<K, V>, measure: V -> int): int
    decreases |rows|
  {
    if rows == map[] then 0
    else
      var k :| k in rows;
      measure(rows[k]) + Total(rows - {k}, measure)
  }

  /** Any row may be taken out first. */
  lemma {:induction false} TotalExtract<K, V>(rows: map<K, V>, measure: V -> int, k: K)
    requires k in rows
    ensures Total(rows, measure) == measure(rows[k]) + Total(rows - {k}, measure)
    decreases |rows|
  {
    var first :| first in rows && Total(rows, measure) == measure(rows[first]) + Total(rows - {first}, measure);
    if first != k {
      TotalExtract(rows - {first}, measure, k);
      TotalExtract(rows - {k}, measure, first);
      assert rows - {first} - {k} == rows - {k} - {first};
    }
  }

  /** Writing one row moves the total by exactly that row's change. */
  lemma {:induction false} TotalPut<K, V>(rows: map<K, V>, measure: V -> int, k: K, v: V)
    ensures Total(rows[k := v], measure)
         == Total(rows, measure) - (if k in rows then measure(rows[k]) else 0) + measure(v)
  {
    TotalExtract(rows[k := v], measure, k);
    assert rows[k := v] - {k} == rows - {k};
    if k in rows {
      TotalExtract(rows, measure, k);
    } else {
      assert rows - {k} == rows;
    }
  }

  lemma {:induction false} TotalAtMost<K, V>(rows: map<K, V>, low: V -> int, high: V -> int)
    requires forall k :: k in rows ==> low(rows[k]) <= high(rows[k])
    ensures Total(rows, low) <= Total(rows, high)
    decreases |rows|
  {
    if rows != map[] {
      var k :| k in rows;
      TotalExtract(rows, low, k);
      TotalExtract(rows, high, k);
      TotalAtMost(rows - {k}, low, high);
    }
  }

  /** Two stores with the same keys whose rows measure the same have the same total. */
  lemma {:induction false} TotalAgrees<K, V, W>(left: map<K, V>, right: map<K, W>, f: V -> int, g: W -> int)
    requires left.Keys == right.Keys
    requires forall k :: k in left ==> f(left[k]) == g(right[k])
    ensures Total(left, f) == Total(right, g)
    decreases |left|
  {
    if left == map[] {
      assert right.Keys == {};
    } else {
      var k :| k in left;
      TotalExtract(left, f, k);
      TotalExtract(right, g, k);
      assert (left - {k}).Keys == (right - {k}).Keys;
      TotalAgrees(left - {k}, right - {k}, f, g);
    }
  }
}
