/**
 * What backward, update and zero_grad do, stated against independent
 * definitions: the partial derivative of the recomputed expression value
 * (the chain rule), and the number of paths in the context DAG (the visit
 * counts of the walks).
 */
module GraphProperties {
  import opened Autograd

  // ---------------------------------------------------------------------
  // Local rules
  // ---------------------------------------------------------------------

  /** A power of 1 is 1 and a positive power of 0 is 0. */
  lemma {:induction false} PowerOfOneZero(a: nat)
    ensures Power(1.0, a) == 1.0
    ensures a > 0 ==> Power(0.0, a) == 0.0
  {
    if a > 0 {
      PowerOfOneZero(a - 1);
    }
  }

  /** `x ** 0` is 1, and exponents add: `x ** (a + b)` is `x ** a * x ** b`. */
  lemma {:induction false} PowerAdd(x: real, a: nat, b: nat)
    ensures Power(x, 0) == 1.0
    ensures Power(x, a + b) == Power(x, a) * Power(x, b)
    decreases a
  {
    if a > 0 {
      PowerAdd(x, a - 1, b);
      MulAssoc(x, Power(x, a - 1), Power(x, b));
    }
  }

  lemma MulAssoc(x: real, p: real, q: real)
    ensures x * (p * q) == (x * p) * q
  {
  }

  /**
   * The gradient Pow sends to its base is the expression backward writes,
   * `g * y * x ** (y - 1)`, for a natural exponent `y >= 1`; for `y = 0` it
   * is 0.
   */
  lemma PowGradAsWritten(x: real, y: real, g: real)
    requires IsNat(y)
    ensures 1.0 <= y ==> LocalGrads(Pow, x, y, g).0 == g * y * Power(x, NatOf(y - 1.0))
    ensures y == 0.0 ==> LocalGrads(Pow, x, y, g).0 == 0.0
  {
    if 1.0 <= y {
      var k := NatOf(y);
      assert (y - 1.0).Floor == y.Floor - 1;
      assert NatOf(y - 1.0) == k - 1;
      assert PowBaseFactor(x, k) == (k as real) * Power(x, k - 1);
      MulAssoc(g, y, Power(x, k - 1));
    }
  }

  /**
   * The local gradients of Add, Sub and Mul are the partial derivatives of
   * the operator: the change of the value is linear in them, plus the
   * product of the two changes for Mul.
   */
  lemma LocalGradsAreDerivatives(op: Op, x: real, y: real, h: real, k: real)
    requires op != Pow
    ensures var gs := LocalGrads(op, x, y, 1.0);
            OpValue(op, x + h, y + k) == OpValue(op, x, y) + h * gs.0 + k * gs.1 + (if op == Mul then h * k else 0.0)
  {
  }

  /** The `h * h` coefficient of `(x + h) ** k`. */
  function PowRemainder(x: real, h: real, k: nat): real
  {
    if k == 0 then 0.0
    else (x + h) * PowRemainder(x, h, k - 1) + PowBaseFactor(x, k - 1)
  }

  lemma PowBaseFactorStep(x: real, k: nat)
    requires k >= 1
    ensures x * PowBaseFactor(x, k - 1) + Power(x, k - 1) == PowBaseFactor(x, k)
  {
    if k >= 2 {
      assert Power(x, k - 1) == x * Power(x, k - 2);
      assert x * (((k - 1) as real) * Power(x, k - 2)) == ((k - 1) as real) * Power(x, k - 1);
    }
  }

  /**
   * The gradient Pow sends to its base is the derivative of `x ** k`:
   * `(x + h) ** k` is `x ** k`, plus `h` times the base factor, plus `h * h`
   * times a polynomial in `x` and `h`.
   */
  predicate PowExpanded(x: real, h: real, k: nat)
  {
    Power(x + h, k) == Power(x, k) + h * PowBaseFactor(x, k) + h * h * PowRemainder(x, h, k)
  }

  lemma {:induction false} PowBaseRule(x: real, h: real, k: nat)
    ensures PowExpanded(x, h, k)
  {
    if k > 0 {
      PowBaseRule(x, h, k - 1);
      PowBaseStep(x, h, k);
    } else {
      assert PowBaseFactor(x, 0) == 0.0 && PowRemainder(x, h, 0) == 0.0;
    }
  }

  /** The inductive step of PowBaseRule: multiply the expansion for `k - 1` by `x + h`. */
  lemma PowBaseStep(x: real, h: real, k: nat)
    requires k >= 1 && PowExpanded(x, h, k - 1)
    ensures PowExpanded(x, h, k)
  {
    PowBaseFactorStep(x, k);
    ExpandStep(x, h, Power(x, k - 1), PowBaseFactor(x, k - 1), PowRemainder(x, h, k - 1));
  }

  lemma ExpandStep(x: real, h: real, p: real, d: real, r: real)
    ensures (x + h) * (p + h * d + h * h * r) == x * p + h * (x * d + p) + h * h * ((x + h) * r + d)
  {
  }

  // ---------------------------------------------------------------------
  // backward
  // ---------------------------------------------------------------------

  /** Backward gives nothing to a tensor that is not a leaf requiring a gradient. */
  lemma {:induction false} ContribOnlyTrainable(ts: seq<Tensor>, cs: seq<GradContext>, c: nat, g: real, n: nat)
    requires WellFormed(ts, cs) && c < |cs|
    requires n >= |ts| || !Trainable(ts[n])
    ensures Contrib(ts, cs, c, g, n) == 0.0
    decreases c
  {
    assert ContextOk(ts, cs, c);
    var x := cs[c];
    match x.kind
    case Accumulate =>
      assert TensorOk(ts, cs, x.tensors[0]);
    case Binary(op) =>
      var gs := LocalGrads(op, ts[x.tensors[0]].data, ts[x.tensors[1]].data, g);
      ContribOnlyTrainable(ts, cs, x.nextCtx[0], gs.0, n);
      ContribOnlyTrainable(ts, cs, x.nextCtx[1], gs.1, n);
  }

  /**
   * Backward changes no data, no flag and no context handle; it changes the
   * grad only of leaves that require a gradient, so derived tensors keep
   * grad 0.
   */
  lemma BackwardOnlyTouchesLeafGrads(ts: seq<Tensor>, cs: seq<GradContext>, c: nat, g: real)
    requires WellFormed(ts, cs) && c < |cs|
    ensures SameValues(ts, BackwardSpec(ts, cs, c, g))
    ensures OnlyTrainableChanged(ts, BackwardSpec(ts, cs, c, g))
    ensures forall t :: 0 <= t < |ts| && !ts[t].isLeaf ==> BackwardSpec(ts, cs, c, g)[t].grad == 0.0
  {
    var us := BackwardSpec(ts, cs, c, g);
    forall t | 0 <= t < |ts| && !Trainable(ts[t]) ensures us[t] == ts[t] {
      ContribOnlyTrainable(ts, cs, c, g, t);
    }
    forall t | 0 <= t < |ts| && !ts[t].isLeaf ensures us[t].grad == 0.0 {
      assert TensorOk(ts, cs, t);
    }
  }

  /**
   * One operator over two leaves: backward(g) adds to each operand leaf
   * that requires a gradient the local gradient of its position (both,
   * summed, when the two operands are the same leaf), and nothing to any
   * other tensor.
   */
  lemma BackwardOverLeaves(ts: seq<Tensor>, cs: seq<GradContext>, c: nat, g: real, n: nat)
    requires WellFormed(ts, cs) && c < |cs| && cs[c].kind.Binary?
    requires |cs[c].tensors| == 2 && cs[c].tensors[0] < |ts| && cs[c].tensors[1] < |ts|
    requires ts[cs[c].tensors[0]].isLeaf && ts[cs[c].tensors[1]].isLeaf
    ensures var t1, t2 := cs[c].tensors[0], cs[c].tensors[1];
            var gs := LocalGrads(cs[c].kind.op, ts[t1].data, ts[t2].data, g);
            Contrib(ts, cs, c, g, n)
            == (if n == t1 && ts[t1].requireGrad then gs.0 else 0.0)
               + (if n == t2 && ts[t2].requireGrad then gs.1 else 0.0)
  {
    assert ContextOk(ts, cs, c);
    var t1, t2 := cs[c].tensors[0], cs[c].tensors[1];
    assert TensorOk(ts, cs, t1) && TensorOk(ts, cs, t2);
  }

  /** In a consistent arena a tensor's data is the value its context recomputes from the leaves. */
  lemma {:induction false} EvalData(ts: seq<Tensor>, cs: seq<GradContext>, t: nat)
    requires WellFormed(ts, cs) && Consistent(ts, cs) && t < |ts|
    ensures ts[t].gradCtx < |cs| && Eval(ts, cs, ts[t].gradCtx) == ts[t].data
    decreases ts[t].gradCtx
  {
    assert TensorOk(ts, cs, t);
    var c := ts[t].gradCtx;
    assert ContextOk(ts, cs, c);
    if !ts[t].isLeaf {
      var x := cs[c];
      assert Acyclic(cs) && x.nextCtx[0] < c && x.nextCtx[1] < c;
      EvalData(ts, cs, x.tensors[0]);
      EvalData(ts, cs, x.tensors[1]);
      assert ForwardHolds(ts, cs, t);
    }
  }

  /** Real multiplication, as a named function in which the chain rule states its products. */
  function Times(a: real, b: real): real
  {
    a * b
  }

  /**
   * The chain rule.  In a consistent arena, backward(g) from context `c`
   * adds to a leaf that requires a gradient exactly `g` times the partial
   * derivative of `c`'s value with respect to that leaf, summed over every
   * path (so a leaf used twice, as in `a * a`, gets both contributions).
   */
  lemma {:induction false} ChainRule(ts: seq<Tensor>, cs: seq<GradContext>, c: nat, g: real, n: nat)
    requires WellFormed(ts, cs) && Consistent(ts, cs) && c < |cs|
    requires n < |ts| && Trainable(ts[n])
    ensures Contrib(ts, cs, c, g, n) == Times(g, Partial(ts, cs, c, n))
    decreases c
  {
    assert ContextOk(ts, cs, c);
    var x := cs[c];
    match x.kind
    case Accumulate =>
      assert TensorOk(ts, cs, x.tensors[0]);
    case Binary(op) =>
      var t1, t2 := x.tensors[0], x.tensors[1];
      var n0, n1 := x.nextCtx[0], x.nextCtx[1];
      assert Acyclic(cs) && n0 < c && n1 < c;
      var gs := LocalGrads(op, ts[t1].data, ts[t2].data, g);
      EvalData(ts, cs, t1);
      EvalData(ts, cs, t2);
      ChainRule(ts, cs, n0, gs.0, n);
      ChainRule(ts, cs, n1, gs.1, n);
      // an operand that needs no gradient is a leaf other than `n`
      assert TensorOk(ts, cs, t1) && TensorOk(ts, cs, t2);
      var du, dv := Partial(ts, cs, n0, n), Partial(ts, cs, n1, n);
      LocalChain(op, ts[t1].data, ts[t2].data, g, du, dv, ts[t1].requireGrad, ts[t2].requireGrad,
                 if ts[t1].requireGrad then Contrib(ts, cs, n0, gs.0, n) else 0.0,
                 if ts[t2].requireGrad then Contrib(ts, cs, n1, gs.1, n) else 0.0);
  }

  /** One step of the chain rule: backward's local gradients against the derivative rules. */
  lemma LocalChain(op: Op, u: real, v: real, g: real, du: real, dv: real, req1: bool, req2: bool, a: real, b: real)
    requires !req1 ==> du == 0.0
    requires !req2 ==> dv == 0.0
    requires op == Pow ==> !req2
    requires a == if req1 then Times(LocalGrads(op, u, v, g).0, du) else 0.0
    requires b == if req2 then Times(LocalGrads(op, u, v, g).1, dv) else 0.0
    ensures a + b == Times(g, DerivRule(op, u, v, du, dv))
  {
    assert a == Times(LocalGrads(op, u, v, g).0, du) && b == Times(LocalGrads(op, u, v, g).1, dv);
    match op
    case Add =>
    case Sub =>
    case Mul =>
      assert (g * v) * du + (g * u) * dv == g * (du * v + u * dv);
    case Pow =>
      assert (g * PowBaseFactor(u, NatOf(v))) * du == g * (PowBaseFactor(u, NatOf(v)) * du);
  }

  // ---------------------------------------------------------------------
  // update and zero_grad
  // ---------------------------------------------------------------------

  lemma {:induction false} PathsBelow(cs: seq<GradContext>, c: nat, e: nat)
    requires Acyclic(cs) && c < |cs| && c < e
    ensures Paths(cs, c, e) == 0
    decreases c, 1
  {
    PathsAllBelow(cs, c, cs[c].nextCtx, e);
  }

  lemma {:induction false} PathsAllBelow(cs: seq<GradContext>, c: nat, xs: seq<nat>, e: nat)
    requires Acyclic(cs) && c < |cs| && c < e && forall k :: 0 <= k < |xs| ==> xs[k] < c
    ensures PathsAll(cs, c, xs, e) == 0
    decreases c, 0, |xs|
  {
    if xs != [] {
      PathsAllBelow(cs, c, xs[..|xs| - 1], e);
      PathsBelow(cs, xs[|xs| - 1], e);
    }
  }

  /** Unfolds VisitsAll and PathsAll over the two predecessors of a binary context. */
  lemma BinaryUnfold(ts: seq<Tensor>, cs: seq<GradContext>, c: nat, t: nat, e: nat)
    requires WellFormed(ts, cs) && c < |cs| && cs[c].kind.Binary?
    ensures ContextOk(ts, cs, c)
    ensures cs[c].nextCtx[0] < c && cs[c].nextCtx[1] < c
    ensures Visits(cs, c, t) == multiset(cs[c].tensors)[t] + Visits(cs, cs[c].nextCtx[0], t) + Visits(cs, cs[c].nextCtx[1], t)
    ensures c != e ==> Paths(cs, c, e) == Paths(cs, cs[c].nextCtx[0], e) + Paths(cs, cs[c].nextCtx[1], e)
  {
    assert ContextOk(ts, cs, c);
    var xs := cs[c].nextCtx;
    assert xs[..|xs| - 1] == xs[..1] && xs[..1][..0] == [];
    assert VisitsAll(cs, c, xs[..1], t) == Visits(cs, xs[0], t);
    assert PathsAll(cs, c, xs[..1], e) == Paths(cs, xs[0], e);
  }

  /**
   * The visit count of update and zero_grad.  With `l` the context of
   * tensor `t`, a walk from `c` visits a context owning `t` once per path
   * from `c` into `l`, plus, for a leaf, once more at `l` itself (its
   * accumulate context owns it too).  So an operand leaf is stepped twice
   * on a single path.
   */
  lemma {:induction false} VisitsFormula(ts: seq<Tensor>, cs: seq<GradContext>, c: nat, t: nat)
    requires WellFormed(ts, cs) && c < |cs| && t < |ts|
    ensures Visits(cs, c, t) + (if c == ts[t].gradCtx then 1 else 0)
            == (if ts[t].isLeaf then 2 else 1) * Paths(cs, c, ts[t].gradCtx)
    decreases c
  {
    var l := ts[t].gradCtx;
    assert TensorOk(ts, cs, t);
    assert ContextOk(ts, cs, c);
    var x := cs[c];
    if x.kind.Accumulate? {
      assert x.tensors == [x.tensors[0]] && ts[x.tensors[0]].gradCtx == c;
      assert x.tensors[0] == t <==> c == l;
    } else {
      BinaryUnfold(ts, cs, c, t, l);
      var n0, n1 := x.nextCtx[0], x.nextCtx[1];
      VisitsFormula(ts, cs, n0, t);
      VisitsFormula(ts, cs, n1, t);
      assert x.tensors == [x.tensors[0], x.tensors[1]];
      assert x.tensors[0] == t <==> n0 == l;
      assert x.tensors[1] == t <==> n1 == l;
      if c == l {
        PathsBelow(cs, n0, l);
        PathsBelow(cs, n1, l);
      }
    }
  }

  /**
   * zero_grad and update from `c` touch a tensor exactly when its context is
   * reachable from `c`, leaving out the tensor that `c` itself produced.
   */
  lemma VisitedIffReachable(ts: seq<Tensor>, cs: seq<GradContext>, c: nat, t: nat)
    requires WellFormed(ts, cs) && c < |cs| && t < |ts|
    ensures Visits(cs, c, t) > 0 <==> Paths(cs, c, ts[t].gradCtx) > 0 && (ts[t].isLeaf || c != ts[t].gradCtx)
  {
    VisitsFormula(ts, cs, c, t);
  }

  /**
   * update from `c` lowers the data of each leaf by its grad times
   * `2 * paths - [c is the leaf's own context]`, leaves every grad as it
   * was, and changes nothing else (other tensors hold grad 0).
   */
  lemma UpdateLowersLeaves(ts: seq<Tensor>, cs: seq<GradContext>, c: nat, t: nat)
    requires WellFormed(ts, cs) && c < |cs| && t < |ts|
    ensures |UpdateSpec(ts, cs, c)| == |ts|
    ensures Trainable(ts[t]) ==>
      var p := Paths(cs, c, ts[t].gradCtx);
      UpdateSpec(ts, cs, c)[t].data
        == ts[t].data - ((2 * p - (if c == ts[t].gradCtx then 1 else 0)) as real) * ts[t].grad
    ensures UpdateSpec(ts, cs, c)[t].grad == ts[t].grad
    ensures !Trainable(ts[t]) ==> UpdateSpec(ts, cs, c)[t] == ts[t]
  {
    VisitsFormula(ts, cs, c, t);
    assert TensorOk(ts, cs, t);
  }

  /**
   * For `r = t1 op t2` with a leaf operand `a` that the other operand does
   * not reach, update from r's context lowers `a.data` by `2 * a.grad`.
   */
  lemma OperandLeafSteppedTwice(ts: seq<Tensor>, cs: seq<GradContext>, r: nat, k: nat)
    requires WellFormed(ts, cs) && r < |ts| && ts[r].gradCtx < |cs| && !ts[r].isLeaf && k < 2
    requires var x := cs[ts[r].gradCtx];
             |x.tensors| == 2 && x.tensors[k] < |ts| && ts[x.tensors[k]].isLeaf
             && x.tensors[1 - k] < |ts| && ts[x.tensors[1 - k]].isLeaf && x.tensors[1 - k] != x.tensors[k]
    ensures var a := cs[ts[r].gradCtx].tensors[k];
            Visits(cs, ts[r].gradCtx, a) == 2
            && UpdateSpec(ts, cs, ts[r].gradCtx)[a].data == ts[a].data - 2.0 * ts[a].grad
  {
    var c := ts[r].gradCtx;
    assert TensorOk(ts, cs, r);
    var x := cs[c];
    var a, b := x.tensors[k], x.tensors[1 - k];
    assert TensorOk(ts, cs, a) && TensorOk(ts, cs, b);
    BinaryUnfold(ts, cs, c, a, ts[a].gradCtx);
    assert ts[a].gradCtx != ts[b].gradCtx;
    assert Paths(cs, ts[b].gradCtx, ts[a].gradCtx) == 0;
    assert Paths(cs, c, ts[a].gradCtx) == 1;
    VisitsFormula(ts, cs, c, a);
  }

  /** update and zero_grad from the context of a derived tensor leave that tensor untouched. */
  lemma RootUntouched(ts: seq<Tensor>, cs: seq<GradContext>, r: nat)
    requires WellFormed(ts, cs) && r < |ts| && ts[r].gradCtx < |cs| && !ts[r].isLeaf
    ensures Visits(cs, ts[r].gradCtx, r) == 0
    ensures UpdateSpec(ts, cs, ts[r].gradCtx)[r] == ts[r]
    ensures ZeroGradSpec(ts, cs, ts[r].gradCtx)[r] == ts[r]
  {
    VisitsFormula(ts, cs, ts[r].gradCtx, r);
  }

  /**
   * zero_grad from `c` resets the grad of every tensor owned by a reachable
   * context, changes no data, and a second call changes nothing.
   */
  lemma ZeroGradProperties(ts: seq<Tensor>, cs: seq<GradContext>, c: nat)
    requires WellFormed(ts, cs) && c < |cs|
    ensures var us := ZeroGradSpec(ts, cs, c);
            && |us| == |ts|
            && (forall t :: 0 <= t < |ts| ==> us[t].data == ts[t].data)
            && (forall t :: 0 <= t < |ts| && Paths(cs, c, ts[t].gradCtx) > 0 && ts[t].isLeaf ==> us[t].grad == 0.0)
            && ZeroGradSpec(us, cs, c) == us
  {
    var us := ZeroGradSpec(ts, cs, c);
    forall t | 0 <= t < |ts| && Paths(cs, c, ts[t].gradCtx) > 0 && ts[t].isLeaf ensures us[t].grad == 0.0 {
      VisitedIffReachable(ts, cs, c, t);
    }
    forall t | 0 <= t < |us| ensures ZeroGradSpec(us, cs, c)[t] == us[t] { }
  }
}
