/** Parameter-update rules (network/optimizer.py): plain gradient descent and gradient
    descent with momentum, each applied in place to one layer's weights and bias. */
module Optimizer {
  import opened Tensors

  /** The key under which the momentum optimizer keeps its velocities in a layer's store. */
  const MomentumKey: string := "mv"

  /** The velocity pair (v_dW, v_db) of the momentum optimizer. */
  datatype MomentumState = MomentumState(vW: Matrix, vb: Vector)

  /** The velocity pair has the shapes of a rows x cols weight matrix and an n-element bias. */
  predicate Shaped(v: MomentumState, rows: nat, cols: nat, n: nat) {
    IsShape(v.vW, rows, cols) && |v.vb| == n
  }

  /** The velocities that `np.zeros(dW.shape)` and `np.zeros(db.shape)` create on first use. */
  function Rest(rows: nat, cols: nat, n: nat): (v: MomentumState) {
    MomentumState(Zeros(rows, cols), VZeros(n))
  }

  /** The part of a layer the optimizers use: the weight matrix W and the bias b, both updated
      in place, and the key-value parameter store reached through HasParam, GetParam and
      SetParam. W and b are never replaced, so their shapes are fixed at construction. */
  class Layer {
    const W: array2<real>
    const b: array<real>
    var params: map<string, MomentumState>

    constructor (W: array2<real>, b: array<real>)
      ensures this.W == W && this.b == b && params == map[]
    {
      this.W := W;
      this.b := b;
      params := map[];
    }

    predicate HasParam(key: string)
      reads this
    {
      key in params
    }

    function GetParam(key: string): MomentumState
      reads this
      requires HasParam(key)
    {
      params[key]
    }

    method SetParam(key: string, value: MomentumState)
      modifies this`params
      ensures params == old(params)[key := value]
    {
      params := params[key := value];
    }

    /** A stored momentum velocity, if any, has the shapes of W and b. */
    predicate MomentumShaped()
      reads this
    {
      MomentumKey in params ==> Shaped(params[MomentumKey], W.Length0, W.Length1, b.Length)
    }
  }

  /** The gradients have the shapes of the layer's parameters. */
  predicate GradientsFit(layer: Layer, dW: array2<real>, db: array<real>) {
    dW.Length0 == layer.W.Length0 && dW.Length1 == layer.W.Length1 && db.Length == layer.b.Length
  }

  /** One plain gradient-descent step on a matrix: `W += -lr * dW`. */
  function GDStep(w: Matrix, lr: real, g: Matrix): Matrix
    requires SameShape(w, g)
  {
    Add(w, Scale(-lr, g))
  }

  /** One plain gradient-descent step on a vector: `b += -lr * db`. */
  function GDStepVec(b: Vector, lr: real, g: Vector): Vector
    requires |b| == |g|
  {
    VAdd(b, VScale(-lr, g))
  }

  /** The new velocities `mu * v - lr * grad`, for both W and b. */
  function NextVelocity(mu: real, lr: real, v: MomentumState, gW: Matrix, gb: Vector): MomentumState
    requires SameShape(v.vW, gW) && |v.vb| == |gb|
  {
    MomentumState(Sub(Scale(mu, v.vW), Scale(lr, gW)), VSub(VScale(mu, v.vb), VScale(lr, gb)))
  }

  /** The velocity the momentum update starts from: the stored one, or zeros on first use. */
  function PriorVelocity(layer: Layer): MomentumState
    reads layer
  {
    if layer.HasParam(MomentumKey) then layer.GetParam(MomentumKey)
    else Rest(layer.W.Length0, layer.W.Length1, layer.b.Length)
  }

  /** `a += d` on a two-dimensional array. */
  method AddInPlace(a: array2<real>, d: Matrix)
    requires IsShape(d, a.Length0, a.Length1)
    modifies a
    ensures forall i, j :: 0 <= i < a.Length0 && 0 <= j < a.Length1 ==> a[i, j] == old(a[i, j]) + d[i][j]
  {
    var i := 0;
    while i < a.Length0
      invariant 0 <= i <= a.Length0
      invariant forall k, j :: 0 <= k < i && 0 <= j < a.Length1 ==> a[k, j] == old(a[k, j]) + d[k][j]
      invariant forall k, j :: i <= k < a.Length0 && 0 <= j < a.Length1 ==> a[k, j] == old(a[k, j])
    {
      var j := 0;
      while j < a.Length1
        invariant 0 <= j <= a.Length1
        invariant forall k, l :: 0 <= k < i && 0 <= l < a.Length1 ==> a[k, l] == old(a[k, l]) + d[k][l]
        invariant forall l :: 0 <= l < j ==> a[i, l] == old(a[i, l]) + d[i][l]
        invariant forall k, l :: i <= k < a.Length0 && 0 <= l < a.Length1 && (k > i || l >= j) ==> a[k, l] == old(a[k, l])
      {
        a[i, j] := a[i, j] + d[i][j];
        j := j + 1;
      }
      i := i + 1;
    }
  }

  /** `a += d` on a one-dimensional array. */
  method AddVecInPlace(a: array<real>, d: Vector)
    requires |d| == a.Length
    modifies a
    ensures forall j :: 0 <= j < a.Length ==> a[j] == old(a[j]) + d[j]
  {
    var j := 0;
    while j < a.Length
      invariant 0 <= j <= a.Length
      invariant forall l :: 0 <= l < j ==> a[l] == old(a[l]) + d[l]
      invariant forall l :: j <= l < a.Length ==> a[l] == old(a[l])
    {
      a[j] := a[j] + d[j];
      j := j + 1;
    }
  }

  /** Plain gradient descent with learning rate `lr`. */
  class GDOptimizer {
    var lr: real

    constructor (lr: real := 0.001)
      ensures this.lr == lr
    {
      this.lr := lr;
    }

    /** `W -= lr * dW`, `b -= lr * db`, in place; returns the same layer. The gradients are read
        before anything is written, so they may be the layer's own arrays. */
    method Update(layer: Layer, dW: array2<real>, db: array<real>) returns (r: Layer)
      requires GradientsFit(layer, dW, db)
      modifies layer.W, layer.b
      ensures r == layer
      ensures forall i, j :: 0 <= i < layer.W.Length0 && 0 <= j < layer.W.Length1 ==>
                layer.W[i, j] == old(layer.W[i, j]) - lr * old(dW[i, j])
      ensures forall j :: 0 <= j < layer.b.Length ==> layer.b[j] == old(layer.b[j]) - lr * old(db[j])
      ensures Rows(layer.W) == GDStep(old(Rows(layer.W)), lr, old(Rows(dW)))
      ensures layer.b[..] == GDStepVec(old(layer.b[..]), lr, old(db[..]))
    {
      ghost var w0, g0 := Rows(layer.W), Rows(dW);
      var stepW := Scale(-lr, Rows(dW));
      var stepB := VScale(-lr, db[..]);
      AddInPlace(layer.W, stepW);
      AddVecInPlace(layer.b, stepB);
      r := layer;
      assert Rows(layer.W) == GDStep(w0, lr, g0) by {
        forall i | 0 <= i < layer.W.Length0
          ensures Rows(layer.W)[i] == GDStep(w0, lr, g0)[i]
        {
        }
      }
    }

    /** `lr *= factor`. */
    method DecayLearningRate(factor: real)
      modifies this`lr
      ensures lr == old(lr) * factor
    {
      lr := lr * factor;
    }
  }

  /** Gradient descent with momentum `mu`: the velocity kept under MomentumKey in each layer's
      store persists from one call on that layer to the next. */
  class GDMomentumOptimizer {
    var lr: real
    var mu: real

    constructor (lr: real := 0.001, mu: real := 0.9)
      ensures this.lr == lr && this.mu == mu
    {
      this.lr := lr;
      this.mu := mu;
    }

    /** Creates zero velocities on first use, computes `v = mu * v - lr * grad`, adds `v` to W
        and b in place and stores it back; no other key of the store changes. */
    method Update(layer: Layer, dW: array2<real>, db: array<real>) returns (r: Layer)
      requires GradientsFit(layer, dW, db)
      requires layer.MomentumShaped()
      modifies layer`params, layer.W, layer.b
      ensures r == layer
      ensures layer.MomentumShaped() && layer.HasParam(MomentumKey)
      ensures layer.params == old(layer.params)[MomentumKey := layer.params[MomentumKey]]
      ensures layer.params[MomentumKey] ==
                NextVelocity(mu, lr, old(PriorVelocity(layer)), old(Rows(dW)), old(db[..]))
      ensures forall i, j :: 0 <= i < layer.W.Length0 && 0 <= j < layer.W.Length1 ==>
                layer.W[i, j] == old(layer.W[i, j]) + layer.params[MomentumKey].vW[i][j]
      ensures forall j :: 0 <= j < layer.b.Length ==>
                layer.b[j] == old(layer.b[j]) + layer.params[MomentumKey].vb[j]
    {
      if !layer.HasParam(MomentumKey) {
        layer.SetParam(MomentumKey, Rest(dW.Length0, dW.Length1, db.Length));
      }
      var v := layer.GetParam(MomentumKey);
      var vW := Sub(Scale(mu, v.vW), Scale(lr, Rows(dW)));
      var vb := VSub(VScale(mu, v.vb), VScale(lr, db[..]));
      AddInPlace(layer.W, vW);
      AddVecInPlace(layer.b, vb);
      layer.SetParam(MomentumKey, MomentumState(vW, vb));
      r := layer;
    }

    /** `lr *= factor`. */
    method DecayLearningRate(factor: real)
      modifies this`lr
      ensures lr == old(lr) * factor
    {
      lr := lr * factor;
    }
  }

  function Pow(f: real, k: nat): real {
    if k == 0 then 1.0 else f * Pow(f, k - 1)
  }

  /** The learning rate after k successive calls of `decay_learning_rate(f)`. */
  function Decayed(lr: real, f: real, k: nat): real {
    if k == 0 then lr else Decayed(lr, f, k - 1) * f
  }

  /** Repeated decay by the same factor gives a geometric learning rate. */
  lemma {:induction false} DecayedIsGeometric(lr: real, f: real, k: nat)
    ensures Decayed(lr, f, k) == lr * Pow(f, k)
  {
    if k > 0 {
      DecayedIsGeometric(lr, f, k - 1);
      assert lr * Pow(f, k - 1) * f == lr * (f * Pow(f, k - 1));
    }
  }

  /** k calls of GDOptimizer.DecayLearningRate with factor f multiply lr by f^k. */
  method DecayGDRepeatedly(opt: GDOptimizer, f: real, k: nat)
    modifies opt
    ensures opt.lr == old(opt.lr) * Pow(f, k)
  {
    var n := 0;
    while n < k
      invariant 0 <= n <= k
      invariant opt.lr == Decayed(old(opt.lr), f, n)
    {
      opt.DecayLearningRate(f);
      n := n + 1;
    }
    DecayedIsGeometric(old(opt.lr), f, k);
  }

  /** k calls of GDMomentumOptimizer.DecayLearningRate with factor f multiply lr by f^k and
      leave mu alone. */
  method DecayMomentumRepeatedly(opt: GDMomentumOptimizer, f: real, k: nat)
    modifies opt
    ensures opt.lr == old(opt.lr) * Pow(f, k) && opt.mu == old(opt.mu)
  {
    var n := 0;
    while n < k
      invariant 0 <= n <= k
      invariant opt.lr == Decayed(old(opt.lr), f, n) && opt.mu == old(opt.mu)
    {
      opt.DecayLearningRate(f);
      n := n + 1;
    }
    DecayedIsGeometric(old(opt.lr), f, k);
  }

  /** A gradient-descent step with zero gradients changes nothing. */
  lemma GDZeroGradientIsIdentity(w: Matrix, b: Vector, lr: real, rows: nat, cols: nat)
    requires IsShape(w, rows, cols)
    ensures GDStep(w, lr, Zeros(rows, cols)) == w
    ensures GDStepVec(b, lr, VZeros(|b|)) == b
  {
    forall i | 0 <= i < rows
      ensures GDStep(w, lr, Zeros(rows, cols))[i] == w[i]
    {
    }
  }

  /** From zero velocities, the momentum step is exactly the plain gradient-descent step. */
  lemma MomentumFromRestIsGD(mu: real, lr: real, w: Matrix, b: Vector, gW: Matrix, gb: Vector, rows: nat, cols: nat)
    requires IsShape(w, rows, cols) && IsShape(gW, rows, cols) && |b| == |gb|
    ensures var v := NextVelocity(mu, lr, Rest(rows, cols, |gb|), gW, gb);
            Shaped(v, rows, cols, |gb|) &&
            Add(w, v.vW) == GDStep(w, lr, gW) && VAdd(b, v.vb) == GDStepVec(b, lr, gb)
  {
    var v := NextVelocity(mu, lr, Rest(rows, cols, |gb|), gW, gb);
    forall i | 0 <= i < rows
      ensures Add(w, v.vW)[i] == GDStep(w, lr, gW)[i]
    {
      forall j | 0 <= j < cols
        ensures Add(w, v.vW)[i][j] == GDStep(w, lr, gW)[i][j]
      {
        assert v.vW[i][j] == mu * 0.0 - lr * gW[i][j];
      }
    }
    forall j | 0 <= j < |b|
      ensures VAdd(b, v.vb)[j] == GDStepVec(b, lr, gb)[j]
    {
      assert v.vb[j] == mu * 0.0 - lr * gb[j];
    }
  }

  /** With zero gradients the velocity is scaled by exactly mu. */
  lemma ZeroGradientScalesVelocity(mu: real, lr: real, v: MomentumState, rows: nat, cols: nat)
    requires Shaped(v, rows, cols, |v.vb|)
    ensures NextVelocity(mu, lr, v, Zeros(rows, cols), VZeros(|v.vb|)) ==
            MomentumState(Scale(mu, v.vW), VScale(mu, v.vb))
  {
    var next := NextVelocity(mu, lr, v, Zeros(rows, cols), VZeros(|v.vb|));
    forall i | 0 <= i < rows
      ensures next.vW[i] == Scale(mu, v.vW)[i]
    {
    }
  }

  /** The velocity after k updates with zero gradients. */
  function ZeroGradientVelocity(mu: real, lr: real, v: MomentumState, rows: nat, cols: nat, k: nat): (r: MomentumState)
    requires Shaped(v, rows, cols, |v.vb|)
    ensures Shaped(r, rows, cols, |v.vb|)
  {
    if k == 0 then v
    else
      var prev := ZeroGradientVelocity(mu, lr, v, rows, cols, k - 1);
      NextVelocity(mu, lr, prev, Zeros(rows, cols), VZeros(|prev.vb|))
  }

  /** Under zero gradients the velocity decays geometrically: after k updates it is mu^k * v. */
  lemma {:induction false} ZeroGradientVelocityIsGeometric(mu: real, lr: real, v: MomentumState, rows: nat, cols: nat, k: nat)
    requires Shaped(v, rows, cols, |v.vb|)
    ensures ZeroGradientVelocity(mu, lr, v, rows, cols, k) ==
            MomentumState(Scale(Pow(mu, k), v.vW), VScale(Pow(mu, k), v.vb))
  {
    if k == 0 {
      ScaleOne(v.vW);
      assert VScale(1.0, v.vb) == v.vb;
    } else {
      var prev := ZeroGradientVelocity(mu, lr, v, rows, cols, k - 1);
      var p := Pow(mu, k - 1);
      ZeroGradientVelocityIsGeometric(mu, lr, v, rows, cols, k - 1);
      ZeroGradientScalesVelocity(mu, lr, prev, rows, cols);
      ScaleScale(mu, p, v.vW);
      VScaleScale(mu, p, v.vb);
      assert Pow(mu, k) == mu * p;
    }
  }

  lemma ScaleOne(m: Matrix)
    ensures Scale(1.0, m) == m
  {
    forall i | 0 <= i < |m|
      ensures Scale(1.0, m)[i] == m[i]
    {
    }
  }

  /** Zero velocities with zero gradients stay zero, and adding them leaves W and b unchanged. */
  lemma RestIsFixedPoint(mu: real, lr: real, w: Matrix, b: Vector, rows: nat, cols: nat)
    requires IsShape(w, rows, cols)
    ensures NextVelocity(mu, lr, Rest(rows, cols, |b|), Zeros(rows, cols), VZeros(|b|)) == Rest(rows, cols, |b|)
    ensures Add(w, Zeros(rows, cols)) == w && VAdd(b, VZeros(|b|)) == b
  {
    var next := NextVelocity(mu, lr, Rest(rows, cols, |b|), Zeros(rows, cols), VZeros(|b|));
    forall i | 0 <= i < rows
      ensures next.vW[i] == Zeros(rows, cols)[i] && Add(w, Zeros(rows, cols))[i] == w[i]
    {
    }
  }

  /** From a layer with no stored velocity, k momentum updates with zero gradients leave W and b
      unchanged and, once at least one update has run, store zero velocities. */
  method ZeroGradientUpdates(opt: GDMomentumOptimizer, layer: Layer, dW: array2<real>, db: array<real>, k: nat)
    requires GradientsFit(layer, dW, db) && !layer.HasParam(MomentumKey)
    requires Rows(dW) == Zeros(dW.Length0, dW.Length1) && db[..] == VZeros(db.Length)
    modifies layer`params, layer.W, layer.b
    ensures Rows(layer.W) == old(Rows(layer.W)) && layer.b[..] == old(layer.b[..])
    ensures k > 0 ==> layer.params == old(layer.params)[MomentumKey := Rest(layer.W.Length0, layer.W.Length1, layer.b.Length)]
  {
    var rows, cols, n := layer.W.Length0, layer.W.Length1, layer.b.Length;
    var t := 0;
    while t < k
      invariant 0 <= t <= k
      invariant Rows(layer.W) == old(Rows(layer.W)) && layer.b[..] == old(layer.b[..])
      invariant Rows(dW) == Zeros(rows, cols) && db[..] == VZeros(n)
      invariant t == 0 ==> layer.params == old(layer.params)
      invariant t > 0 ==> layer.params == old(layer.params)[MomentumKey := Rest(rows, cols, n)]
    {
      assert PriorVelocity(layer) == Rest(rows, cols, n);
      ghost var w0, b0 := Rows(layer.W), layer.b[..];
      var same := opt.Update(layer, dW, db);
      RestIsFixedPoint(opt.mu, opt.lr, w0, b0, rows, cols);
      assert layer.params[MomentumKey] == Rest(rows, cols, n);
      forall i | 0 <= i < rows
        ensures Rows(layer.W)[i] == w0[i]
      {
        forall j | 0 <= j < cols
          ensures Rows(layer.W)[i][j] == w0[i][j]
        {
          assert layer.params[MomentumKey].vW[i][j] == 0.0;
        }
      }
      assert layer.b[..] == b0;
      t := t + 1;
    }
  }
}
