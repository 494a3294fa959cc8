/**
 * The mean-squared-error loss of two tensors, `(t1 - t2) ** 2`: a Sub
 * node, a leaf holding the exponent 2 that needs no gradient, and a Pow node.
 */
module LossFn {
  import opened Autograd
  import opened GraphProperties

  /**
   * The three tensors `MSE(t1, t2)` appends, ending at `r`: `r - 2` is
   * `t1 - t2`, `r - 1` the exponent leaf, `r` the result.
   */
  ghost predicate IsMSE(ts: seq<Tensor>, cs: seq<GradContext>, r: nat, t1: nat, t2: nat)
  {
    && 2 <= r < |ts| && t1 < r - 2 && t2 < r - 2
    && ts[t1].gradCtx < |cs| && ts[t2].gradCtx < |cs|
    && ts[r].gradCtx < |cs| && ts[r - 2].gradCtx < |cs| && ts[r - 1].gradCtx < |cs|
    && ts[r - 1].isLeaf && !ts[r - 1].requireGrad && ts[r - 1].data == 2.0
    && !ts[r - 2].isLeaf && ts[r - 2].requireGrad
    && !ts[r].isLeaf && ts[r].requireGrad
    && cs[ts[r - 2].gradCtx] == GradContext(Binary(Sub), [t1, t2], [ts[t1].gradCtx, ts[t2].gradCtx])
    && cs[ts[r].gradCtx] == GradContext(Binary(Pow), [r - 2, r - 1], [ts[r - 2].gradCtx, ts[r - 1].gradCtx])
  }

  /**
   * `MSE(t1, t2)`: subtract, then raise to the raw number 2.  The result is
   * a derived tensor holding `(t1.data - t2.data) ** 2`; the operands, and
   * everything else already in the arena, are unchanged.
   */
  method MSE(arena: Arena, t1: nat, t2: nat) returns (r: nat)
    requires arena.Valid() && t1 < |arena.tensors| && t2 < |arena.tensors|
    modifies arena
    ensures arena.Valid()
    ensures old(arena.tensors) < arena.tensors && old(arena.contexts) < arena.contexts
    ensures |arena.tensors| == |old(arena.tensors)| + 3 && |arena.contexts| == |old(arena.contexts)| + 3
    ensures r == |arena.tensors| - 1
    ensures IsMSE(arena.tensors, arena.contexts, r, t1, t2)
    ensures var x, y := arena.tensors[t1].data, arena.tensors[t2].data;
            arena.tensors[r - 2].data == x - y && arena.tensors[r].data == (x - y) * (x - y)
    ensures Consistent(old(arena.tensors), old(arena.contexts)) ==> Consistent(arena.tensors, arena.contexts)
  {
    var d := arena.Apply(Sub, t1, Ref(t2));
    assert IsNat(2.0);
    r := arena.Apply(Pow, d, Num(2.0));
    SquareIsPower(arena.tensors[d].data);
    assert TensorOk(arena.tensors, arena.contexts, t1) && TensorOk(arena.tensors, arena.contexts, t2);
  }

  lemma SquareIsPower(x: real)
    ensures OpValue(Pow, x, 2.0) == x * x
  {
    assert NatOf(2.0) == 2;
    assert Power(x, 1) == x;
  }

  /** The gradient Pow by 2 sends to its base `x - y`. */
  lemma SquareGrad(x: real, y: real, d: real, g: real)
    requires d == x - y
    ensures LocalGrads(Pow, d, 2.0, g).0 == 2.0 * (x - y) * g
  {
    assert NatOf(2.0) == 2;
    assert Power(d, 1) == d;
  }

  /**
   * Backward from the result of MSE sends `2 * (t1.data - t2.data) * g`
   * down the first operand and its negation down the second; the exponent
   * path is never walked.
   */
  lemma MSEBackward(ts: seq<Tensor>, cs: seq<GradContext>, r: nat, t1: nat, t2: nat, g: real, n: nat)
    requires WellFormed(ts, cs) && IsMSE(ts, cs, r, t1, t2)
    requires ts[r - 2].data == ts[t1].data - ts[t2].data
    ensures var grad := 2.0 * (ts[t1].data - ts[t2].data) * g;
            Contrib(ts, cs, ts[r].gradCtx, g, n)
            == (if ts[t1].requireGrad then Contrib(ts, cs, ts[t1].gradCtx, grad, n) else 0.0)
               + (if ts[t2].requireGrad then Contrib(ts, cs, ts[t2].gradCtx, -grad, n) else 0.0)
  {
    var d := r - 2;
    var grad := 2.0 * (ts[t1].data - ts[t2].data) * g;
    assert TensorOk(ts, cs, r);
    assert ContextOk(ts, cs, ts[r].gradCtx);
    assert ContextOk(ts, cs, ts[d].gradCtx);
    SquareGrad(ts[t1].data, ts[t2].data, ts[d].data, g);
    assert Contrib(ts, cs, ts[r].gradCtx, g, n) == Contrib(ts, cs, ts[d].gradCtx, LocalGrads(Pow, ts[d].data, ts[r - 1].data, g).0, n);
    assert LocalGrads(Pow, ts[d].data, ts[r - 1].data, g).0 == grad;
    assert Contrib(ts, cs, ts[d].gradCtx, grad, n)
           == (if ts[t1].requireGrad then Contrib(ts, cs, ts[t1].gradCtx, grad, n) else 0.0)
              + (if ts[t2].requireGrad then Contrib(ts, cs, ts[t2].gradCtx, -grad, n) else 0.0);
  }

  /**
   * With leaves as operands, backward(g) from the result of MSE adds
   * `2 * (t1.data - t2.data) * g` to the grad of `t1` and its negation to
   * the grad of `t2` (each when it requires a gradient; both when `t1` and
   * `t2` are the same leaf, which then gains 0), leaves the exponent's grad
   * alone, and changes no data.
   */
  lemma MSELeafGradients(ts: seq<Tensor>, cs: seq<GradContext>, r: nat, t1: nat, t2: nat, g: real)
    requires WellFormed(ts, cs) && IsMSE(ts, cs, r, t1, t2)
    requires ts[r - 2].data == ts[t1].data - ts[t2].data
    requires ts[t1].isLeaf && ts[t2].isLeaf
    ensures var us, grad := BackwardSpec(ts, cs, ts[r].gradCtx, g), 2.0 * (ts[t1].data - ts[t2].data) * g;
            && us[t1].grad == ts[t1].grad + (if ts[t1].requireGrad then grad else 0.0)
            && us[t2].grad == ts[t2].grad + (if ts[t2].requireGrad then -grad else 0.0)
            && us[r - 1] == ts[r - 1]
            && forall t :: 0 <= t < |ts| ==> us[t].data == ts[t].data
  {
    var grad := 2.0 * (ts[t1].data - ts[t2].data) * g;
    assert TensorOk(ts, cs, t1) && TensorOk(ts, cs, t2);
    MSEBackward(ts, cs, r, t1, t2, g, t1);
    MSEBackward(ts, cs, r, t1, t2, g, t2);
    if t1 == t2 {
      var e := ts[t1].data - ts[t2].data;
      assert e == 0.0;
      assert 2.0 * e * g == 0.0;
    }
    ContribOnlyTrainable(ts, cs, ts[r].gradCtx, g, r - 1);
    BackwardOnlyTouchesLeafGrads(ts, cs, ts[r].gradCtx, g);
  }

  /**
   * In a consistent arena, backward(g) from the result of MSE adds to any
   * leaf `n` that requires a gradient `G * dt1/dn - G * dt2/dn`, with
   * `G = 2 * (t1.data - t2.data) * g`: the chain rule through `(t1 - t2) ** 2`,
   * for operands that may themselves be expressions.
   */
  lemma MSEChainRule(ts: seq<Tensor>, cs: seq<GradContext>, r: nat, t1: nat, t2: nat, g: real, n: nat)
    requires WellFormed(ts, cs) && Consistent(ts, cs) && IsMSE(ts, cs, r, t1, t2)
    requires n < |ts| && Trainable(ts[n])
    ensures var grad := 2.0 * (ts[t1].data - ts[t2].data) * g;
            Contrib(ts, cs, ts[r].gradCtx, g, n)
            == Times(grad, Partial(ts, cs, ts[t1].gradCtx, n)) + Times(-grad, Partial(ts, cs, ts[t2].gradCtx, n))
  {
    var grad := 2.0 * (ts[t1].data - ts[t2].data) * g;
    assert ForwardHolds(ts, cs, r - 2);
    MSEBackward(ts, cs, r, t1, t2, g, n);
    ChainRule(ts, cs, ts[t1].gradCtx, grad, n);
    ChainRule(ts, cs, ts[t2].gradCtx, -grad, n);
    assert TensorOk(ts, cs, t1) && TensorOk(ts, cs, t2);
  }
}
