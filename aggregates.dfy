/**
 * Column arithmetic behind the summary and the recommendations: the sum of a
 * column and the first position holding its largest or smallest value (the
 * semantics of a data frame's `sum`, `idxmax`, `idxmin` and `nlargest(1)`).
 */
module Aggregates {

  /** The values added up left to right, starting from zero. */
  function Sum(xs: seq<real>): real
  {
    if xs == [] then 0.0 else Sum(xs[..|xs| - 1]) + xs[|xs| - 1]
  }

  /** Summing a concatenation sums the parts. */
  lemma {:induction false} SumAppend(xs: seq<real>, ys: seq<real>)
    ensures Sum(xs + ys) == Sum(xs) + Sum(ys)
  {
    if ys == [] {
      assert xs + ys == xs;
    } else {
      var zs := xs + ys;
      assert zs[..|zs| - 1] == xs + ys[..|ys| - 1];
      SumAppend(xs, ys[..|ys| - 1]);
    }
  }

  /** Summing a value followed by a column adds the value to the column's sum. */
  lemma SumCons(x: real, xs: seq<real>)
    ensures Sum([x] + xs) == x + Sum(xs)
  {
    SumAppend([x], xs);
    assert [x][..0] == [];
  }

  /** The column `f` of a sequence of rows. */
  function Column<T>(rows: seq<T>, f: T -> real): (col: seq<real>)
    ensures |col| == |rows|
  {
    seq(|rows|, i requires 0 <= i < |rows| => f(rows[i]))
  }

  lemma ColumnAppend<T>(u: seq<T>, v: seq<T>, f: T -> real)
    ensures Column(u + v, f) == Column(u, f) + Column(v, f)
  {
  }

  /** Taking row `k` out of a column takes its value out of the column's sum. */
  lemma ColumnSumWithout<T>(rows: seq<T>, k: nat, f: T -> real)
    requires k < |rows|
    ensures Sum(Column(rows, f)) == f(rows[k]) + Sum(Column(rows[..k] + rows[k + 1..], f))
  {
    var left, right, x := rows[..k], rows[k + 1..], f(rows[k]);
    assert rows == left + [rows[k]] + right;
    ColumnAppend(left + [rows[k]], right, f);
    ColumnAppend(left, [rows[k]], f);
    ColumnAppend(left, right, f);
    assert Column([rows[k]], f) == [x];
    SumAppend(Column(left, f) + [x], Column(right, f));
    SumAppend(Column(left, f), [x]);
    SumAppend(Column(left, f), Column(right, f));
    SumCons(x, []);
    assert [x] + [] == [x];
  }

  /**
   * Where the first row of `a` sits in `b`, when both hold the same rows; the
   * rest of `a` then holds the same rows as `b` without that one.
   */
  lemma MatchFirstRow<T>(a: seq<T>, b: seq<T>) returns (k: nat)
    requires a != [] && multiset(a) == multiset(b)
    ensures k < |b| && b[k] == a[0]
    ensures multiset(a[1..]) == multiset(b[..k] + b[k + 1..])
  {
    assert a[0] in multiset(b);
    k :| 0 <= k < |b| && b[k] == a[0];
    assert b == b[..k] + [b[k]] + b[k + 1..];
    assert a == [a[0]] + a[1..];
    assert multiset(b[..k] + b[k + 1..]) == multiset(b) - multiset{a[0]};
    assert multiset(a[1..]) == multiset(a) - multiset{a[0]};
  }

  /** Two sequences holding the same rows, in any order, have the same column sum. */
  lemma {:induction false} ColumnSumIgnoresOrder<T>(a: seq<T>, b: seq<T>, f: T -> real)
    requires multiset(a) == multiset(b)
    ensures Sum(Column(a, f)) == Sum(Column(b, f))
    decreases |a|
  {
    if a == [] {
      assert |b| == |multiset(b)| == 0;
    } else {
      var k := MatchFirstRow(a, b);
      var rest := b[..k] + b[k + 1..];
      calc {
        Sum(Column(a, f));
        { ColumnSumWithout(a, 0, f); assert a[..0] + a[1..] == a[1..]; }
        f(a[0]) + Sum(Column(a[1..], f));
        { ColumnSumIgnoresOrder(a[1..], rest, f); }
        f(b[k]) + Sum(Column(rest, f));
        { ColumnSumWithout(b, k, f); }
        Sum(Column(b, f));
      }
    }
  }

  /** Scaling every value of a column scales its sum by the same factor. */
  lemma {:induction false} SumScaled(xs: seq<real>, ys: seq<real>, factor: real)
    requires |ys| == |xs|
    requires forall i :: 0 <= i < |xs| ==> ys[i] == factor * xs[i]
    ensures Sum(ys) == factor * Sum(xs)
  {
    if xs != [] {
      SumScaled(xs[..|xs| - 1], ys[..|ys| - 1], factor);
    }
  }

  /**
   * The first position whose value is the largest: every value is at most the
   * one there, and every earlier value is strictly smaller.
   */
  function IndexOfFirstMax(xs: seq<real>): (k: nat)
    requires |xs| > 0
    ensures k < |xs|
    ensures forall j :: 0 <= j < |xs| ==> xs[j] <= xs[k]
    ensures forall j :: 0 <= j < k ==> xs[j] < xs[k]
  {
    if |xs| == 1 then 0
    else
      var k := IndexOfFirstMax(xs[..|xs| - 1]);
      if xs[|xs| - 1] > xs[k] then |xs| - 1 else k
  }

  /**
   * The first position whose value is the smallest: every value is at least the
   * one there, and every earlier value is strictly larger.
   */
  function IndexOfFirstMin(xs: seq<real>): (k: nat)
    requires |xs| > 0
    ensures k < |xs|
    ensures forall j :: 0 <= j < |xs| ==> xs[k] <= xs[j]
    ensures forall j :: 0 <= j < k ==> xs[k] < xs[j]
  {
    if |xs| == 1 then 0
    else
      var k := IndexOfFirstMin(xs[..|xs| - 1]);
      if xs[|xs| - 1] < xs[k] then |xs| - 1 else k
  }
}
