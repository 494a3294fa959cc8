/**
 * Small scenarios built on a fresh arena: the values and gradients the
 * operators, backward, update and zero_grad produce for concrete inputs.
 */
module Examples {
  import opened Autograd
  import opened GraphProperties
  import opened LossFn

  /** `c = a + b` with a = 3, b = 4 both requiring a gradient; backward(1) gives each grad 1. */
  method AddExample() returns (sum: real, gradA: real, gradB: real)
    ensures sum == 7.0 && gradA == 1.0 && gradB == 1.0
  {
    var arena := new Arena();
    var a := arena.NewTensor(3.0, true);
    var b := arena.NewTensor(4.0, true);
    var c := arena.Apply(Add, a, Ref(b));
    sum := arena.tensors[c].data;
    BackwardOverLeaves(arena.tensors, arena.contexts, arena.tensors[c].gradCtx, 1.0, a);
    BackwardOverLeaves(arena.tensors, arena.contexts, arena.tensors[c].gradCtx, 1.0, b);
    arena.Backward(arena.tensors[c].gradCtx, 1.0);
    gradA, gradB := arena.tensors[a].grad, arena.tensors[b].grad;
  }

  /**
   * `c = a - b` with a = 3, b = 4; b needs no gradient, so backward(2)
   * leaves its grad at 0 and gives a the grad 2.
   */
  method SubExample() returns (diff: real, gradA: real, gradB: real)
    ensures diff == -1.0 && gradA == 2.0 && gradB == 0.0
  {
    var arena := new Arena();
    var a := arena.NewTensor(3.0, true);
    var b := arena.NewTensor(4.0, false);
    var c := arena.Apply(Sub, a, Ref(b));
    diff := arena.tensors[c].data;
    BackwardOverLeaves(arena.tensors, arena.contexts, arena.tensors[c].gradCtx, 2.0, a);
    BackwardOverLeaves(arena.tensors, arena.contexts, arena.tensors[c].gradCtx, 2.0, b);
    arena.Backward(arena.tensors[c].gradCtx, 2.0);
    gradA, gradB := arena.tensors[a].grad, arena.tensors[b].grad;
  }

  /** `c = a * 5` with a = 3: the raw number becomes a leaf; a's grad after backward(1) is 5. */
  method MulByNumberExample() returns (product: real, gradA: real, constantGrad: real)
    ensures product == 15.0 && gradA == 5.0 && constantGrad == 0.0
  {
    var arena := new Arena();
    var a := arena.NewTensor(3.0, true);
    var c := arena.Apply(Mul, a, Num(5.0));
    product := arena.tensors[c].data;
    BackwardOverLeaves(arena.tensors, arena.contexts, arena.tensors[c].gradCtx, 1.0, a);
    BackwardOverLeaves(arena.tensors, arena.contexts, arena.tensors[c].gradCtx, 1.0, c - 1);
    arena.Backward(arena.tensors[c].gradCtx, 1.0);
    gradA, constantGrad := arena.tensors[a].grad, arena.tensors[c - 1].grad;
  }

  /** `c = a * a` with a = 3: both paths reach a, so backward(1) adds `2 * 3`. */
  method SquareExample() returns (square: real, gradA: real)
    ensures square == 9.0 && gradA == 6.0
  {
    var arena := new Arena();
    var a := arena.NewTensor(3.0, true);
    var c := arena.Apply(Mul, a, Ref(a));
    square := arena.tensors[c].data;
    arena.Backward(arena.tensors[c].gradCtx, 1.0);
    gradA := arena.tensors[a].grad;
  }

  /** Backward twice on `c = a * a` accumulates rather than overwrites: the grad is 12. */
  method AccumulateExample() returns (gradA: real)
    ensures gradA == 12.0
  {
    var arena := new Arena();
    var a := arena.NewTensor(3.0, true);
    var c := arena.Apply(Mul, a, Ref(a));
    arena.Backward(arena.tensors[c].gradCtx, 1.0);
    arena.Backward(arena.tensors[c].gradCtx, 1.0);
    gradA := arena.tensors[a].grad;
  }

  /** `MSE(t1, t2)` with t1 = 5, t2 = 2: loss 9, backward(1) gives grads 6 and -6. */
  method MseExample() returns (loss: real, grad1: real, grad2: real)
    ensures loss == 9.0 && grad1 == 6.0 && grad2 == -6.0
  {
    var arena := new Arena();
    var t1 := arena.NewTensor(5.0, true);
    var t2 := arena.NewTensor(2.0, true);
    var r := MSE(arena, t1, t2);
    loss := arena.tensors[r].data;
    MSELeafGradients(arena.tensors, arena.contexts, r, t1, t2, 1.0);
    arena.Backward(arena.tensors[r].gradCtx, 1.0);
    grad1, grad2 := arena.tensors[t1].grad, arena.tensors[t2].grad;
  }

  /**
   * `c = a + b`, backward(1), then update from c's context: a is owned by
   * the Add context and by its own accumulate context, so its data drops
   * by twice its grad, from 3 to 1; c itself is not touched.
   */
  method UpdateAfterAddExample() returns (dataA: real, gradA: real, dataC: real)
    ensures dataA == 1.0 && gradA == 1.0 && dataC == 7.0
  {
    var arena := new Arena();
    var a := arena.NewTensor(3.0, true);
    var b := arena.NewTensor(4.0, true);
    var c := arena.Apply(Add, a, Ref(b));
    var ctx := arena.tensors[c].gradCtx;
    ghost var ts := arena.tensors;
    BackwardOverLeaves(ts, arena.contexts, ctx, 1.0, a);
    BackwardOverLeaves(ts, arena.contexts, ctx, 1.0, b);
    ContribOnlyTrainable(ts, arena.contexts, ctx, 1.0, c);
    arena.Backward(ctx, 1.0);
    assert arena.tensors[a] == ts[a].(grad := 1.0);
    assert arena.tensors[b] == ts[b].(grad := 1.0);
    assert arena.tensors[c] == ts[c];
    OperandLeafSteppedTwice(arena.tensors, arena.contexts, c, 0);
    RootUntouched(arena.tensors, arena.contexts, c);
    arena.Update(ctx);
    dataA, gradA, dataC := arena.tensors[a].data, arena.tensors[a].grad, arena.tensors[c].data;
  }

  /** zero_grad after backward on `c = a * b` resets both leaves' grads and keeps their data. */
  method ZeroGradExample() returns (gradA: real, gradB: real, dataA: real)
    ensures gradA == 0.0 && gradB == 0.0 && dataA == 3.0
  {
    var arena := new Arena();
    var a := arena.NewTensor(3.0, true);
    var b := arena.NewTensor(4.0, true);
    var c := arena.Apply(Mul, a, Ref(b));
    arena.Backward(arena.tensors[c].gradCtx, 1.0);
    OperandLeafSteppedTwice(arena.tensors, arena.contexts, c, 0);
    OperandLeafSteppedTwice(arena.tensors, arena.contexts, c, 1);
    arena.ZeroGrad(arena.tensors[c].gradCtx);
    gradA, gradB, dataA := arena.tensors[a].grad, arena.tensors[b].grad, arena.tensors[a].data;
  }
}
