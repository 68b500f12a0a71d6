/** Softmax cross-entropy loss (network/loss.py): from an N x C matrix of logits and N class
    labels, the mean negative log-probability of the labels and the gradient of that mean with
    respect to the logits. numpy's `exp` and `log` are parameters of the model; all that is
    used of them is that exp is positive and log is non-positive on (0, 1]. */
module Loss {
  import opened Tensors

  /** What the model assumes of the exponential. */
  ghost predicate IsPositive(exp: real -> real) {
    forall t :: exp(t) > 0.0
  }

  /** What the model assumes of the natural logarithm. */
  ghost predicate NonPositiveOnUnit(log: real -> real) {
    forall p :: 0.0 < p <= 1.0 ==> log(p) <= 0.0
  }

  /** The batch is non-empty and every label names a column: 1 <= n == |y| and 0 <= y[i] < c
      (so there is at least one column). */
  predicate LabelsInRange(y: seq<int>, n: nat, c: nat) {
    n >= 1 && c >= 1 && |y| == n && forall i :: 0 <= i < |y| ==> 0 <= y[i] < c
  }

  /** `x` is an n x c logit matrix whose labels `y` are in range. */
  predicate ValidBatch(x: Matrix, y: seq<int>, c: nat) {
    IsShape(x, |x|, c) && LabelsInRange(y, |x|, c)
  }

  /** `np.exp` applied to one row. */
  function Exps(exp: real -> real, row: Vector): Vector {
    seq(|row|, j requires 0 <= j < |row| => exp(row[j]))
  }

  lemma ExpsPositive(exp: real -> real, row: Vector)
    requires IsPositive(exp) && |row| >= 1
    ensures forall j :: 0 <= j < |row| ==> Exps(exp, row)[j] > 0.0
    ensures Sum(Exps(exp, row)) > 0.0
  {
    forall j | 0 <= j < |row|
      ensures Exps(exp, row)[j] > 0.0
    {
      var t := row[j];
      assert exp(t) > 0.0;
    }
    SumPositive(Exps(exp, row));
  }

  /** One row of `exp / np.sum(exp, axis=1, keepdims=True)`. */
  function SoftmaxRow(exp: real -> real, row: Vector): Vector
    requires IsPositive(exp) && |row| >= 1
  {
    ExpsPositive(exp, row);
    VDiv(Exps(exp, row), Sum(Exps(exp, row)))
  }

  /** The probability matrix `probs`, row by row. */
  function Softmax(exp: real -> real, x: Matrix): (p: Matrix)
    requires IsPositive(exp)
    requires forall i :: 0 <= i < |x| ==> |x[i]| >= 1
    ensures SameShape(p, x)
  {
    seq(|x|, i requires 0 <= i < |x| => SoftmaxRow(exp, x[i]))
  }

  /** `correct_logprobs = -np.log(probs[range(n), y])`. */
  function NegLogProbs(log: real -> real, p: Matrix, y: seq<int>): Vector
    requires |y| == |p| && forall i :: 0 <= i < |y| ==> 0 <= y[i] < |p[i]|
  {
    seq(|y|, i requires 0 <= i < |y| => -log(p[i][y[i]]))
  }

  /** The scalar loss `np.sum(correct_logprobs) / n`. */
  function CrossEntropy(exp: real -> real, log: real -> real, x: Matrix, y: seq<int>, c: nat): real
    requires IsPositive(exp) && ValidBatch(x, y, c)
  {
    Sum(NegLogProbs(log, Softmax(exp, x), y)) / (|x| as real)
  }

  /** 1 at the label's column, 0 elsewhere. */
  function Indicator(j: int, k: int): real {
    if j == k then 1.0 else 0.0
  }

  /** The gradient in closed form: `(probs[i][j] - [j == y[i]]) / n`. */
  function Gradient(p: Matrix, y: seq<int>): (g: Matrix)
    requires |p| >= 1 && |y| == |p|
    ensures SameShape(g, p)
  {
    seq(|p|, i requires 0 <= i < |p| =>
      seq(|p[i]|, j requires 0 <= j < |p[i]| => (p[i][j] - Indicator(j, y[i])) / (|p| as real)))
  }

  /** Each row of the softmax sums to 1. */
  lemma SoftmaxRowSumsToOne(exp: real -> real, x: Matrix, i: int)
    requires IsPositive(exp)
    requires forall k :: 0 <= k < |x| ==> |x[k]| >= 1
    requires 0 <= i < |x|
    ensures Sum(Softmax(exp, x)[i]) == 1.0
  {
    var e := Exps(exp, x[i]);
    ExpsPositive(exp, x[i]);
    var total := Sum(e);
    assert Softmax(exp, x)[i] == VDiv(e, total);
    SumDiv(e, total);
    assert total / total == 1.0;
  }

  /** Every softmax entry lies in (0, 1]. */
  lemma SoftmaxInUnitInterval(exp: real -> real, x: Matrix, i: int, j: int)
    requires IsPositive(exp)
    requires forall k :: 0 <= k < |x| ==> |x[k]| >= 1
    requires 0 <= i < |x| && 0 <= j < |x[i]|
    ensures 0.0 < Softmax(exp, x)[i][j] <= 1.0
  {
    var e := Exps(exp, x[i]);
    ExpsPositive(exp, x[i]);
    assert Softmax(exp, x)[i][j] == e[j] / Sum(e);
    EntryAtMostSum(e, j);
    DivAtMostOne(e[j], Sum(e));
  }

  lemma DivAtMostOne(a: real, s: real)
    requires 0.0 < a <= s
    ensures 0.0 < a / s <= 1.0
  {
  }

  /** The loss is non-negative. */
  lemma CrossEntropyNonNegative(exp: real -> real, log: real -> real, x: Matrix, y: seq<int>, c: nat)
    requires IsPositive(exp) && NonPositiveOnUnit(log) && ValidBatch(x, y, c)
    ensures CrossEntropy(exp, log, x, y, c) >= 0.0
  {
    var p := Softmax(exp, x);
    var terms := NegLogProbs(log, p, y);
    forall i | 0 <= i < |terms|
      ensures terms[i] >= 0.0
    {
      SoftmaxInUnitInterval(exp, x, i, y[i]);
      var q := p[i][y[i]];
      assert log(q) <= 0.0;
    }
    SumNonNegative(terms);
  }

  /** Each row of the gradient sums to 0. */
  lemma GradientRowSumsToZero(exp: real -> real, x: Matrix, y: seq<int>, c: nat, i: int)
    requires IsPositive(exp) && ValidBatch(x, y, c)
    requires 0 <= i < |x|
    ensures Sum(Gradient(Softmax(exp, x), y)[i]) == 0.0
  {
    var p := Softmax(exp, x);
    var n := |x| as real;
    var hot := OneHot(c, y[i]);
    assert Gradient(p, y)[i] == VDiv(VSub(p[i], hot), n);
    SumDiv(VSub(p[i], hot), n);
    SumSub(p[i], hot);
    SoftmaxRowSumsToOne(exp, x, i);
    SumOneHot(c, y[i]);
  }

  /** The gradient is non-positive at the label and positive elsewhere. */
  lemma GradientSigns(exp: real -> real, x: Matrix, y: seq<int>, c: nat, i: int, j: int)
    requires IsPositive(exp) && ValidBatch(x, y, c)
    requires 0 <= i < |x| && 0 <= j < c
    ensures j == y[i] ==> Gradient(Softmax(exp, x), y)[i][j] <= 0.0
    ensures j != y[i] ==> Gradient(Softmax(exp, x), y)[i][j] > 0.0
  {
    var p := Softmax(exp, x);
    var n := |x| as real;
    SoftmaxInUnitInterval(exp, x, i, j);
    assert Gradient(p, y)[i][j] == (p[i][j] - Indicator(j, y[i])) / n;
    if j == y[i] {
      NonPositiveQuotient(p[i][j] - 1.0, n);
    } else {
      assert p[i][j] / n > 0.0;
    }
  }

  lemma NonPositiveQuotient(a: real, n: real)
    requires a <= 0.0 && n > 0.0
    ensures a / n <= 0.0
  {
  }

  /** SoftmaxCrossEntropyLoss.calculate: returns the loss and a new gradient array. `x` is only
      read, so equal inputs always give equal results. */
  method Calculate(exp: real -> real, log: real -> real, x: array2<real>, y: seq<int>)
    returns (loss: real, delta: array2<real>)
    requires IsPositive(exp) && LabelsInRange(y, x.Length0, x.Length1)
    ensures loss == CrossEntropy(exp, log, Rows(x), y, x.Length1)
    ensures delta != x && delta.Length0 == x.Length0 && delta.Length1 == x.Length1
    ensures forall i, j :: 0 <= i < x.Length0 && 0 <= j < x.Length1 ==>
              delta[i, j] == (Softmax(exp, Rows(x))[i][j] - Indicator(j, y[i])) / (x.Length0 as real)
    ensures Rows(delta) == Gradient(Softmax(exp, Rows(x)), y)
    ensures forall i :: 0 <= i < x.Length0 ==> Sum(Rows(delta)[i]) == 0.0
    ensures NonPositiveOnUnit(log) ==> loss >= 0.0
  {
    var n := x.Length0;
    var probs := Softmax(exp, Rows(x));
    loss := Sum(NegLogProbs(log, probs, y)) / (n as real);
    delta := GradientArray(probs, y, x.Length1);
    forall i | 0 <= i < n
      ensures Sum(Rows(delta)[i]) == 0.0
    {
      GradientRowSumsToZero(exp, Rows(x), y, x.Length1, i);
    }
    if NonPositiveOnUnit(log) {
      CrossEntropyNonNegative(exp, log, Rows(x), y, x.Length1);
    }
  }

  /** The gradient array: it starts as the probabilities (`delta = probs`), loses 1 at each
      label, and is divided by n, in place. */
  method GradientArray(probs: Matrix, y: seq<int>, c: nat) returns (delta: array2<real>)
    requires IsShape(probs, |probs|, c) && LabelsInRange(y, |probs|, c)
    ensures fresh(delta) && delta.Length0 == |probs| && delta.Length1 == c
    ensures forall i, j :: 0 <= i < |probs| && 0 <= j < c ==>
              delta[i, j] == (probs[i][j] - Indicator(j, y[i])) / (|probs| as real)
    ensures Rows(delta) == Gradient(probs, y)
  {
    var n := |probs|;
    delta := new real[n, c]((i, j) requires 0 <= i < n && 0 <= j < c => probs[i][j]);
    SubtractAtLabels(delta, y);
    DivideInPlace(delta, n as real);
    forall i | 0 <= i < n
      ensures Rows(delta)[i] == Gradient(probs, y)[i]
    {
    }
  }

  /** `delta[range(n), y] -= 1`: one entry per row, at that row's label. */
  method SubtractAtLabels(a: array2<real>, y: seq<int>)
    requires |y| == a.Length0 && forall i :: 0 <= i < |y| ==> 0 <= y[i] < a.Length1
    modifies a
    ensures forall i, j :: 0 <= i < a.Length0 && 0 <= j < a.Length1 ==>
              a[i, j] == old(a[i, j]) - Indicator(j, y[i])
  {
    var i := 0;
    while i < a.Length0
      invariant 0 <= i <= a.Length0
      invariant forall k, j :: 0 <= k < a.Length0 && 0 <= j < a.Length1 ==>
                  a[k, j] == old(a[k, j]) - (if k < i then Indicator(j, y[k]) else 0.0)
    {
      a[i, y[i]] := a[i, y[i]] - 1.0;
      i := i + 1;
    }
  }

  /** `delta /= float(n)`: every entry divided by d. */
  method DivideInPlace(a: array2<real>, d: real)
    requires d != 0.0
    modifies a
    ensures forall i, j :: 0 <= i < a.Length0 && 0 <= j < a.Length1 ==> a[i, j] == old(a[i, j]) / d
  {
    var i := 0;
    while i < a.Length0
      invariant 0 <= i <= a.Length0
      invariant forall k, j :: 0 <= k < i && 0 <= j < a.Length1 ==> a[k, j] == old(a[k, j]) / d
      invariant forall k, j :: i <= k < a.Length0 && 0 <= j < a.Length1 ==> a[k, j] == old(a[k, j])
    {
      var j := 0;
      while j < a.Length1
        invariant 0 <= j <= a.Length1
        invariant forall k, l :: 0 <= k < i && 0 <= l < a.Length1 ==> a[k, l] == old(a[k, l]) / d
        invariant forall l :: 0 <= l < j ==> a[i, l] == old(a[i, l]) / d
        invariant forall k, l :: i <= k < a.Length0 && 0 <= l < a.Length1 && (k > i || l >= j) ==> a[k, l] == old(a[k, l])
      {
        a[i, j] := a[i, j] / d;
        j := j + 1;
      }
      i := i + 1;
    }
  }
}
