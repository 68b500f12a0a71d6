/** Dense real vectors and matrices as values, the views of numpy arrays that the
    optimizer and the loss are specified against, and the sums they rely on. */
module Tensors {

  type Vector = seq<real>
  type Matrix = seq<seq<real>>

  /** `m` is a rows x cols matrix. */
  predicate IsShape(m: Matrix, rows: nat, cols: nat) {
    |m| == rows && forall i :: 0 <= i < |m| ==> |m[i]| == cols
  }

  /** `a` and `b` have the same number of rows and the same length row by row. */
  predicate SameShape(a: Matrix, b: Matrix) {
    |a| == |b| && forall i :: 0 <= i < |a| ==> |a[i]| == |b[i]|
  }

  /** The contents of a two-dimensional array, row by row. */
  function Rows(a: array2<real>): (m: Matrix)
    reads a
    ensures IsShape(m, a.Length0, a.Length1)
    ensures forall i, j :: 0 <= i < a.Length0 && 0 <= j < a.Length1 ==> m[i][j] == a[i, j]
  {
    seq(a.Length0, i requires 0 <= i < a.Length0 reads a =>
      seq(a.Length1, j requires 0 <= j < a.Length1 reads a => a[i, j]))
  }

  function VZeros(n: nat): (v: Vector) {
    seq(n, _ => 0.0)
  }

  function Zeros(rows: nat, cols: nat): (m: Matrix) {
    seq(rows, _ => VZeros(cols))
  }

  /** c * v, element-wise. */
  function VScale(c: real, v: Vector): Vector {
    seq(|v|, j requires 0 <= j < |v| => c * v[j])
  }

  /** v / d, element-wise. */
  function VDiv(v: Vector, d: real): Vector
    requires d != 0.0
  {
    seq(|v|, j requires 0 <= j < |v| => v[j] / d)
  }

  function VAdd(a: Vector, b: Vector): Vector
    requires |a| == |b|
  {
    seq(|a|, j requires 0 <= j < |a| => a[j] + b[j])
  }

  function VSub(a: Vector, b: Vector): Vector
    requires |a| == |b|
  {
    seq(|a|, j requires 0 <= j < |a| => a[j] - b[j])
  }

  /** c * m, element-wise. */
  function Scale(c: real, m: Matrix): Matrix {
    seq(|m|, i requires 0 <= i < |m| => VScale(c, m[i]))
  }

  function Add(a: Matrix, b: Matrix): Matrix
    requires SameShape(a, b)
  {
    seq(|a|, i requires 0 <= i < |a| => VAdd(a[i], b[i]))
  }

  function Sub(a: Matrix, b: Matrix): Matrix
    requires SameShape(a, b)
  {
    seq(|a|, i requires 0 <= i < |a| => VSub(a[i], b[i]))
  }

  /** The sum of the entries of `v` (numpy's `np.sum` over one axis). */
  function Sum(v: Vector): real {
    if |v| == 0 then 0.0 else v[0] + Sum(v[1..])
  }

  /** The vector that is 1 at position k and 0 elsewhere. */
  function OneHot(n: nat, k: int): Vector {
    seq(n, j => if j == k then 1.0 else 0.0)
  }

  lemma {:induction false} SumNonNegative(v: Vector)
    requires forall j :: 0 <= j < |v| ==> v[j] >= 0.0
    ensures Sum(v) >= 0.0
  {
    if |v| > 0 {
      SumNonNegative(v[1..]);
    }
  }

  lemma {:induction false} SumPositive(v: Vector)
    requires |v| >= 1
    requires forall j :: 0 <= j < |v| ==> v[j] > 0.0
    ensures Sum(v) > 0.0
  {
    SumNonNegative(v[1..]);
  }

  /** No entry of a vector of non-negative entries exceeds its sum. */
  lemma {:induction false} EntryAtMostSum(v: Vector, k: int)
    requires 0 <= k < |v|
    requires forall j :: 0 <= j < |v| ==> v[j] >= 0.0
    ensures v[k] <= Sum(v)
  {
    SumNonNegative(v[1..]);
    if k > 0 {
      EntryAtMostSum(v[1..], k - 1);
    }
  }

  lemma {:induction false} SumDiv(v: Vector, d: real)
    requires d != 0.0
    ensures Sum(VDiv(v, d)) == Sum(v) / d
  {
    if |v| > 0 {
      assert VDiv(v, d)[1..] == VDiv(v[1..], d);
      SumDiv(v[1..], d);
    }
  }

  lemma {:induction false} SumSub(a: Vector, b: Vector)
    requires |a| == |b|
    ensures Sum(VSub(a, b)) == Sum(a) - Sum(b)
  {
    if |a| > 0 {
      assert VSub(a, b)[1..] == VSub(a[1..], b[1..]);
      SumSub(a[1..], b[1..]);
    }
  }

  lemma {:induction false} SumOneHot(n: nat, k: int)
    requires 0 <= k < n
    ensures Sum(OneHot(n, k)) == 1.0
  {
    if k == 0 {
      SumZeros(OneHot(n, k)[1..]);
    } else {
      assert OneHot(n, k)[1..] == OneHot(n - 1, k - 1);
      SumOneHot(n - 1, k - 1);
    }
  }

  lemma {:induction false} SumZeros(v: Vector)
    requires forall j :: 0 <= j < |v| ==> v[j] == 0.0
    ensures Sum(v) == 0.0
  {
    if |v| > 0 {
      SumZeros(v[1..]);
    }
  }

  /** Scaling twice is scaling by the product. */
  lemma ScaleScale(a: real, b: real, m: Matrix)
    ensures Scale(a, Scale(b, m)) == Scale(a * b, m)
  {
    forall i | 0 <= i < |m|
      ensures Scale(a, Scale(b, m))[i] == Scale(a * b, m)[i]
    {
      VScaleScale(a, b, m[i]);
    }
  }

  lemma VScaleScale(a: real, b: real, v: Vector)
    ensures VScale(a, VScale(b, v)) == VScale(a * b, v)
  {
    forall j | 0 <= j < |v|
      ensures VScale(a, VScale(b, v))[j] == VScale(a * b, v)[j]
    {
      assert a * (b * v[j]) == (a * b) * v[j];
    }
  }
}
