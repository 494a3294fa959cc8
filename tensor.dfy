/**
 * Scalar reverse-mode automatic differentiation.
 *
 * Tensors and gradient contexts live in one arena (two sequences) and refer
 * to each other by integer handle.  A tensor's `gradCtx` is the handle of
 * its context; a context lists the tensors it owns (`tensors`) and, once
 * forward has run, the contexts of its operands (`nextCtx`).  Contexts are
 * appended in creation order, so every `nextCtx` entry is smaller than the
 * handle of the context holding it: the context graph is a DAG and the
 * recursive walks terminate on the handle.
 */
module Autograd {

  /** The four binary operators of a tensor. */
  datatype Op = Add | Sub | Mul | Pow

  /** The accumulate terminal of a leaf, or the context of a binary operator. */
  datatype Kind = Accumulate | Binary(op: Op)

  datatype Tensor = Tensor(data: real, grad: real, isLeaf: bool, requireGrad: bool, gradCtx: nat)

  datatype GradContext = GradContext(kind: Kind, tensors: seq<nat>, nextCtx: seq<nat>)

  /** The right operand of an operator: a raw number, or a tensor handle. */
  datatype Operand = Num(value: real) | Ref(handle: nat)

  // ---------------------------------------------------------------------
  // Arithmetic
  // ---------------------------------------------------------------------

  /** `x ** k` for a natural exponent. */
  function Power(x: real, k: nat): real
  {
    if k == 0 then 1.0 else x * Power(x, k - 1)
  }

  /** A real that holds a natural number. */
  predicate IsNat(y: real)
  {
    0.0 <= y && y == y.Floor as real
  }

  function NatOf(y: real): (k: nat)
    ensures IsNat(y) ==> k as real == y
  {
    if y < 0.0 then 0 else y.Floor
  }

  /** `k * x ** (k - 1)`, the derivative of `x ** k` in `x`; 0 when `k == 0`. */
  function PowBaseFactor(x: real, k: nat): real
  {
    if k == 0 then 0.0 else (k as real) * Power(x, k - 1)
  }

  /** The value forward computes from the two operands' data. */
  function OpValue(op: Op, x: real, y: real): real
  {
    match op
    case Add => x + y
    case Sub => x - y
    case Mul => x * y
    case Pow => Power(x, NatOf(y))
  }

  /**
   * The gradients backward sends to the first and the second operand for
   * upstream gradient `g`.  The exponent rule of Pow (`g * x ** y`, without
   * a logarithm) is kept as written; well-formed graphs never reach it.
   */
  function LocalGrads(op: Op, x: real, y: real, g: real): (real, real)
  {
    match op
    case Add => (g, g)
    case Sub => (g, -g)
    case Mul => (g * y, g * x)
    case Pow => (g * PowBaseFactor(x, NatOf(y)), g * Power(x, NatOf(y)))
  }

  // ---------------------------------------------------------------------
  // Well-formed arenas
  // ---------------------------------------------------------------------

  /** Every predecessor context was created before the context naming it. */
  ghost predicate Acyclic(cs: seq<GradContext>)
  {
    forall c, k :: 0 <= c < |cs| && 0 <= k < |cs[c].nextCtx| ==> cs[c].nextCtx[k] < c
  }

  /** An exponent Pow accepts: a leaf that needs no gradient and holds a natural number. */
  ghost predicate ExponentOk(ts: seq<Tensor>, e: nat)
  {
    e < |ts| && ts[e].isLeaf && !ts[e].requireGrad && IsNat(ts[e].data)
  }

  ghost predicate TensorOk(ts: seq<Tensor>, cs: seq<GradContext>, t: nat)
    requires t < |ts|
  {
    && ts[t].gradCtx < |cs|
    && (!ts[t].requireGrad ==> ts[t].grad == 0.0)
    && if ts[t].isLeaf then
         cs[ts[t].gradCtx] == GradContext(Accumulate, [t], [])
       else
         ts[t].requireGrad && ts[t].grad == 0.0 && cs[ts[t].gradCtx].kind.Binary?
  }

  ghost predicate ContextOk(ts: seq<Tensor>, cs: seq<GradContext>, c: nat)
    requires c < |cs|
  {
    var x := cs[c];
    match x.kind
    case Accumulate =>
      |x.tensors| == 1 && x.tensors[0] < |ts| && ts[x.tensors[0]].gradCtx == c && x.nextCtx == []
    case Binary(op) =>
      && |x.tensors| == 2 && |x.nextCtx| == 2
      && x.tensors[0] < |ts| && x.tensors[1] < |ts|
      && x.nextCtx[0] == ts[x.tensors[0]].gradCtx
      && x.nextCtx[1] == ts[x.tensors[1]].gradCtx
      && (op == Pow ==> ExponentOk(ts, x.tensors[1]))
  }

  /**
   * The arena invariant: each tensor has exactly one context, a leaf's
   * context is an accumulate context owning that leaf alone, a derived
   * tensor requires a gradient and never holds one, and each binary context
   * points at its operands' own contexts.
   */
  ghost predicate WellFormed(ts: seq<Tensor>, cs: seq<GradContext>)
  {
    && Acyclic(cs)
    && (forall t :: 0 <= t < |ts| ==> TensorOk(ts, cs, t))
    && (forall a, b :: 0 <= a < |ts| && 0 <= b < |ts| && ts[a].gradCtx == ts[b].gradCtx ==> a == b)
    && (forall c :: 0 <= c < |cs| ==> ContextOk(ts, cs, c))
  }

  /** A leaf that requires a gradient: the only tensor backward and update change. */
  predicate Trainable(t: Tensor)
  {
    t.isLeaf && t.requireGrad
  }

  /** `us` differs from `ts` at most in the data and grad of trainable leaves. */
  ghost predicate OnlyTrainableChanged(ts: seq<Tensor>, us: seq<Tensor>)
  {
    && |ts| == |us|
    && forall t :: 0 <= t < |ts| ==>
         && us[t].isLeaf == ts[t].isLeaf
         && us[t].requireGrad == ts[t].requireGrad
         && us[t].gradCtx == ts[t].gradCtx
         && (!Trainable(ts[t]) ==> us[t] == ts[t])
  }

  /** `us` differs from `ts` at most in grad fields. */
  ghost predicate SameValues(ts: seq<Tensor>, us: seq<Tensor>)
  {
    |ts| == |us| && forall t :: 0 <= t < |ts| ==> us[t].(grad := 0.0) == ts[t].(grad := 0.0)
  }

  /** Every derived tensor still holds the value forward computed from its operands. */
  ghost predicate Consistent(ts: seq<Tensor>, cs: seq<GradContext>)
    requires WellFormed(ts, cs)
  {
    forall t {:trigger ForwardHolds(ts, cs, t)} :: 0 <= t < |ts| && !ts[t].isLeaf ==> ForwardHolds(ts, cs, t)
  }

  ghost predicate ForwardHolds(ts: seq<Tensor>, cs: seq<GradContext>, t: nat)
    requires WellFormed(ts, cs) && t < |ts| && !ts[t].isLeaf
  {
    assert TensorOk(ts, cs, t);
    var x := cs[ts[t].gradCtx];
    assert ContextOk(ts, cs, ts[t].gradCtx);
    ts[t].data == OpValue(x.kind.op, ts[x.tensors[0]].data, ts[x.tensors[1]].data)
  }

  // ---------------------------------------------------------------------
  // What the walks do, as functions of the arena
  // ---------------------------------------------------------------------

  /** The amount `backward(g)` started at context `c` adds to the grad of tensor `n`. */
  ghost function Contrib(ts: seq<Tensor>, cs: seq<GradContext>, c: nat, g: real, n: nat): real
    requires WellFormed(ts, cs) && c < |cs|
    decreases c
  {
    assert ContextOk(ts, cs, c);
    var x := cs[c];
    match x.kind
    case Accumulate =>
      if ts[x.tensors[0]].requireGrad && x.tensors[0] == n then g else 0.0
    case Binary(op) =>
      var t1, t2 := x.tensors[0], x.tensors[1];
      var gs := LocalGrads(op, ts[t1].data, ts[t2].data, g);
      (if ts[t1].requireGrad then Contrib(ts, cs, x.nextCtx[0], gs.0, n) else 0.0)
      + (if ts[t2].requireGrad then Contrib(ts, cs, x.nextCtx[1], gs.1, n) else 0.0)
  }

  /** How many times a walk started at context `c` visits a context owning tensor `t`. */
  ghost function Visits(cs: seq<GradContext>, c: nat, t: nat): nat
    requires Acyclic(cs) && c < |cs|
    decreases c, 1
  {
    multiset(cs[c].tensors)[t] + VisitsAll(cs, c, cs[c].nextCtx, t)
  }

  /** Visits summed over the walks started at each of `xs`, all below `c`. */
  ghost function VisitsAll(cs: seq<GradContext>, c: nat, xs: seq<nat>, t: nat): nat
    requires Acyclic(cs) && c < |cs| && forall k :: 0 <= k < |xs| ==> xs[k] < c
    decreases c, 0, |xs|
  {
    if xs == [] then 0 else VisitsAll(cs, c, xs[..|xs| - 1], t) + Visits(cs, xs[|xs| - 1], t)
  }

  lemma VisitsAllSnoc(cs: seq<GradContext>, c: nat, xs: seq<nat>, j: nat, t: nat)
    requires Acyclic(cs) && c < |cs| && j < |xs| && forall k :: 0 <= k < |xs| ==> xs[k] < c
    ensures VisitsAll(cs, c, xs[..j + 1], t) == VisitsAll(cs, c, xs[..j], t) + Visits(cs, xs[j], t)
  {
    assert xs[..j + 1][..j] == xs[..j];
  }

  /** The number of paths from context `c` to context `e` in the context DAG. */
  ghost function Paths(cs: seq<GradContext>, c: nat, e: nat): nat
    requires Acyclic(cs) && c < |cs|
    decreases c, 1
  {
    if c == e then 1 else PathsAll(cs, c, cs[c].nextCtx, e)
  }

  ghost function PathsAll(cs: seq<GradContext>, c: nat, xs: seq<nat>, e: nat): nat
    requires Acyclic(cs) && c < |cs| && forall k :: 0 <= k < |xs| ==> xs[k] < c
    decreases c, 0, |xs|
  {
    if xs == [] then 0 else PathsAll(cs, c, xs[..|xs| - 1], e) + Paths(cs, xs[|xs| - 1], e)
  }

  /** The arena after `backward(g)` from context `c`. */
  ghost function BackwardSpec(ts: seq<Tensor>, cs: seq<GradContext>, c: nat, g: real): seq<Tensor>
    requires WellFormed(ts, cs) && c < |cs|
  {
    seq(|ts|, t requires 0 <= t < |ts| => ts[t].(grad := ts[t].grad + Contrib(ts, cs, c, g, t)))
  }

  /** The arena after `update()` from context `c`: each visit subtracts grad once. */
  ghost function UpdateSpec(ts: seq<Tensor>, cs: seq<GradContext>, c: nat): seq<Tensor>
    requires Acyclic(cs) && c < |cs|
  {
    seq(|ts|, t requires 0 <= t < |ts| => Lowered(ts[t], Visits(cs, c, t)))
  }

  /** The arena after `zero_grad()` from context `c`. */
  ghost function ZeroGradSpec(ts: seq<Tensor>, cs: seq<GradContext>, c: nat): seq<Tensor>
    requires Acyclic(cs) && c < |cs|
  {
    seq(|ts|, t requires 0 <= t < |ts| => Zeroed(ts[t], Visits(cs, c, t)))
  }

  // ---------------------------------------------------------------------
  // Reference semantics: the value and the derivative recomputed from leaves
  // ---------------------------------------------------------------------

  /** The value of context `c`'s expression, recomputed from the leaves' data. */
  ghost function Eval(ts: seq<Tensor>, cs: seq<GradContext>, c: nat): real
    requires WellFormed(ts, cs) && c < |cs|
    decreases c
  {
    assert ContextOk(ts, cs, c);
    var x := cs[c];
    match x.kind
    case Accumulate => ts[x.tensors[0]].data
    case Binary(op) => OpValue(op, Eval(ts, cs, x.nextCtx[0]), Eval(ts, cs, x.nextCtx[1]))
  }

  /**
   * The partial derivative of Eval(c) with respect to leaf `n`, by the sum,
   * difference, product and power rules (exponents are constants).
   */
  ghost function Partial(ts: seq<Tensor>, cs: seq<GradContext>, c: nat, n: nat): real
    requires WellFormed(ts, cs) && c < |cs|
    decreases c
  {
    assert ContextOk(ts, cs, c);
    var x := cs[c];
    match x.kind
    case Accumulate => if x.tensors[0] == n then 1.0 else 0.0
    case Binary(op) =>
      var u, v := Eval(ts, cs, x.nextCtx[0]), Eval(ts, cs, x.nextCtx[1]);
      DerivRule(op, u, v, Partial(ts, cs, x.nextCtx[0], n), Partial(ts, cs, x.nextCtx[1], n))
  }

  /**
   * The derivative of `u op v` from the values and derivatives of its
   * operands: sum, difference, product and power rules.
   */
  function DerivRule(op: Op, u: real, v: real, du: real, dv: real): real
  {
    match op
    case Add => du + dv
    case Sub => du - dv
    case Mul => du * v + u * dv
    case Pow => PowBaseFactor(u, NatOf(v)) * du
  }

  // ---------------------------------------------------------------------
  // Frame lemmas used by the methods
  // ---------------------------------------------------------------------

  lemma WellFormedFrame(ts: seq<Tensor>, us: seq<Tensor>, cs: seq<GradContext>)
    requires WellFormed(ts, cs) && OnlyTrainableChanged(ts, us)
    ensures WellFormed(us, cs)
  {
    forall t | 0 <= t < |us| ensures TensorOk(us, cs, t) {
      assert TensorOk(ts, cs, t);
    }
    forall c | 0 <= c < |cs| ensures ContextOk(us, cs, c) {
      assert ContextOk(ts, cs, c);
      var x := cs[c];
      if x.kind.Binary? && x.kind.op == Pow {
        assert !Trainable(ts[x.tensors[1]]);
      }
    }
  }

  lemma {:induction false} ContribFrame(ts: seq<Tensor>, us: seq<Tensor>, cs: seq<GradContext>, c: nat, g: real, n: nat)
    requires WellFormed(ts, cs) && WellFormed(us, cs) && SameValues(ts, us) && c < |cs|
    ensures Contrib(ts, cs, c, g, n) == Contrib(us, cs, c, g, n)
    decreases c
  {
    assert ContextOk(ts, cs, c);
    var x := cs[c];
    match x.kind
    case Accumulate =>
      assert ts[x.tensors[0]].requireGrad == us[x.tensors[0]].requireGrad;
    case Binary(op) =>
      var t1, t2 := x.tensors[0], x.tensors[1];
      assert ts[t1].(grad := 0.0) == us[t1].(grad := 0.0);
      assert ts[t2].(grad := 0.0) == us[t2].(grad := 0.0);
      var gs := LocalGrads(op, ts[t1].data, ts[t2].data, g);
      ContribFrame(ts, us, cs, x.nextCtx[0], gs.0, n);
      ContribFrame(ts, us, cs, x.nextCtx[1], gs.1, n);
  }

  /** Changing only grads keeps every derived tensor's forward value. */
  lemma ConsistentFrame(ts: seq<Tensor>, us: seq<Tensor>, cs: seq<GradContext>)
    requires WellFormed(ts, cs) && WellFormed(us, cs) && SameValues(ts, us) && Consistent(ts, cs)
    ensures Consistent(us, cs)
  {
    forall t | 0 <= t < |us| && !us[t].isLeaf ensures ForwardHolds(us, cs, t) {
      assert ts[t].(grad := 0.0) == us[t].(grad := 0.0);
      assert ForwardHolds(ts, cs, t);
      assert TensorOk(ts, cs, t);
      var x := cs[ts[t].gradCtx];
      assert ContextOk(ts, cs, ts[t].gradCtx);
      assert ts[x.tensors[0]].(grad := 0.0) == us[x.tensors[0]].(grad := 0.0);
      assert ts[x.tensors[1]].(grad := 0.0) == us[x.tensors[1]].(grad := 0.0);
    }
  }

  /**
   * Backward at a binary context is backward down the first operand's
   * context, then down the second's, each when that operand requires a
   * gradient.
   */
  lemma BackwardSpecBinary(ts0: seq<Tensor>, ts1: seq<Tensor>, ts2: seq<Tensor>, cs: seq<GradContext>, c: nat, g: real)
    requires WellFormed(ts0, cs) && WellFormed(ts1, cs) && c < |cs| && cs[c].kind.Binary? && ContextOk(ts0, cs, c)
    requires var x := cs[c];
             var t1, t2 := x.tensors[0], x.tensors[1];
             var gs := LocalGrads(x.kind.op, ts0[t1].data, ts0[t2].data, g);
             && ts1 == (if ts0[t1].requireGrad then BackwardSpec(ts0, cs, x.nextCtx[0], gs.0) else ts0)
             && ts2 == (if ts0[t2].requireGrad then BackwardSpec(ts1, cs, x.nextCtx[1], gs.1) else ts1)
    ensures ts2 == BackwardSpec(ts0, cs, c, g)
  {
    var x := cs[c];
    var t1, t2 := x.tensors[0], x.tensors[1];
    var gs := LocalGrads(x.kind.op, ts0[t1].data, ts0[t2].data, g);
    assert SameValues(ts0, ts1);
    forall n | 0 <= n < |ts0|
      ensures ts2[n] == BackwardSpec(ts0, cs, c, g)[n]
    {
      if ts0[t2].requireGrad {
        ContribFrame(ts0, ts1, cs, x.nextCtx[1], gs.1, n);
      }
    }
  }

  /** Backward changes only grads, so it keeps a consistent arena consistent. */
  lemma BackwardSpecConsistent(ts: seq<Tensor>, cs: seq<GradContext>, c: nat, g: real)
    requires WellFormed(ts, cs) && c < |cs|
    ensures Consistent(ts, cs) && WellFormed(BackwardSpec(ts, cs, c, g), cs) ==> Consistent(BackwardSpec(ts, cs, c, g), cs)
  {
    var us := BackwardSpec(ts, cs, c, g);
    if Consistent(ts, cs) && WellFormed(us, cs) {
      assert SameValues(ts, us);
      ConsistentFrame(ts, us, cs);
    }
  }

  /** A tensor after `k` gradient-descent steps with its (unchanged) grad. */
  function Lowered(a: Tensor, k: nat): Tensor
  {
    a.(data := a.data - (k as real) * a.grad)
  }

  lemma LoweredTwice(a: Tensor, k: nat, m: nat)
    ensures Lowered(Lowered(a, k), m) == Lowered(a, k + m)
  {
    assert (k as real) * a.grad + (m as real) * a.grad == ((k + m) as real) * a.grad;
  }

  lemma LowerOneWellFormed(ts: seq<Tensor>, cs: seq<GradContext>, t: nat)
    requires WellFormed(ts, cs) && t < |ts|
    ensures WellFormed(ts[t := Lowered(ts[t], 1)], cs)
  {
    assert TensorOk(ts, cs, t);
    WellFormedFrame(ts, ts[t := Lowered(ts[t], 1)], cs);
  }

  lemma ZeroOneWellFormed(ts: seq<Tensor>, cs: seq<GradContext>, t: nat)
    requires WellFormed(ts, cs) && t < |ts|
    ensures WellFormed(ts[t := ts[t].(grad := 0.0)], cs)
  {
    assert TensorOk(ts, cs, t);
    WellFormedFrame(ts, ts[t := ts[t].(grad := 0.0)], cs);
  }

  /** After the owned tensors and the first `j` predecessor walks of `update()` at `c`. */
  ghost predicate LoweredPrefix(ts0: seq<Tensor>, ts: seq<Tensor>, cs: seq<GradContext>, c: nat, j: nat)
    requires Acyclic(cs) && c < |cs| && j <= |cs[c].nextCtx|
  {
    && |ts| == |ts0|
    && forall t :: 0 <= t < |ts| ==>
         ts[t] == Lowered(ts0[t], multiset(cs[c].tensors)[t] + VisitsAll(cs, c, cs[c].nextCtx[..j], t))
  }

  lemma LoweredPrefixStep(ts0: seq<Tensor>, ts1: seq<Tensor>, ts2: seq<Tensor>, cs: seq<GradContext>, c: nat, j: nat)
    requires Acyclic(cs) && c < |cs| && j < |cs[c].nextCtx|
    requires LoweredPrefix(ts0, ts1, cs, c, j) && ts2 == UpdateSpec(ts1, cs, cs[c].nextCtx[j])
    ensures LoweredPrefix(ts0, ts2, cs, c, j + 1)
  {
    var xs := cs[c].nextCtx;
    forall u | 0 <= u < |ts2|
      ensures ts2[u] == Lowered(ts0[u], multiset(cs[c].tensors)[u] + VisitsAll(cs, c, xs[..j + 1], u))
    {
      VisitsAllSnoc(cs, c, xs, j, u);
      LoweredTwice(ts0[u], multiset(cs[c].tensors)[u] + VisitsAll(cs, c, xs[..j], u), Visits(cs, xs[j], u));
    }
  }

  lemma LoweredPrefixEnd(ts0: seq<Tensor>, ts: seq<Tensor>, cs: seq<GradContext>, c: nat)
    requires Acyclic(cs) && c < |cs| && LoweredPrefix(ts0, ts, cs, c, |cs[c].nextCtx|)
    ensures ts == UpdateSpec(ts0, cs, c)
  {
    assert cs[c].nextCtx[..|cs[c].nextCtx|] == cs[c].nextCtx;
    forall u | 0 <= u < |ts| ensures ts[u] == UpdateSpec(ts0, cs, c)[u] { }
  }

  /** A tensor whose grad was reset if it was visited at least once. */
  function Zeroed(a: Tensor, k: nat): Tensor
  {
    if k > 0 then a.(grad := 0.0) else a
  }

  /** After the owned tensors and the first `j` predecessor walks of `zero_grad()` at `c`. */
  ghost predicate ZeroedPrefix(ts0: seq<Tensor>, ts: seq<Tensor>, cs: seq<GradContext>, c: nat, j: nat)
    requires Acyclic(cs) && c < |cs| && j <= |cs[c].nextCtx|
  {
    && |ts| == |ts0|
    && forall t :: 0 <= t < |ts| ==>
         ts[t] == Zeroed(ts0[t], multiset(cs[c].tensors)[t] + VisitsAll(cs, c, cs[c].nextCtx[..j], t))
  }

  lemma ZeroedPrefixStep(ts0: seq<Tensor>, ts1: seq<Tensor>, ts2: seq<Tensor>, cs: seq<GradContext>, c: nat, j: nat)
    requires Acyclic(cs) && c < |cs| && j < |cs[c].nextCtx|
    requires ZeroedPrefix(ts0, ts1, cs, c, j) && ts2 == ZeroGradSpec(ts1, cs, cs[c].nextCtx[j])
    ensures ZeroedPrefix(ts0, ts2, cs, c, j + 1)
  {
    var xs := cs[c].nextCtx;
    forall u | 0 <= u < |ts2|
      ensures ts2[u] == Zeroed(ts0[u], multiset(cs[c].tensors)[u] + VisitsAll(cs, c, xs[..j + 1], u))
    {
      VisitsAllSnoc(cs, c, xs, j, u);
    }
  }

  lemma ZeroedPrefixEnd(ts0: seq<Tensor>, ts: seq<Tensor>, cs: seq<GradContext>, c: nat)
    requires Acyclic(cs) && c < |cs| && ZeroedPrefix(ts0, ts, cs, c, |cs[c].nextCtx|)
    ensures ts == ZeroGradSpec(ts0, cs, c)
  {
    assert cs[c].nextCtx[..|cs[c].nextCtx|] == cs[c].nextCtx;
    forall u | 0 <= u < |ts| ensures ts[u] == ZeroGradSpec(ts0, cs, c)[u] { }
  }

  /** Appending a fresh leaf and its accumulate context keeps the invariant. */
  lemma AppendLeaf(ts: seq<Tensor>, cs: seq<GradContext>, data: real, requireGrad: bool)
    requires WellFormed(ts, cs)
    ensures var ts', cs' := ts + [Tensor(data, 0.0, true, requireGrad, |cs|)], cs + [GradContext(Accumulate, [|ts|], [])];
            WellFormed(ts', cs') && (Consistent(ts, cs) ==> Consistent(ts', cs'))
  {
    var ts', cs' := ts + [Tensor(data, 0.0, true, requireGrad, |cs|)], cs + [GradContext(Accumulate, [|ts|], [])];
    forall u | 0 <= u < |ts'| ensures TensorOk(ts', cs', u) {
      if u < |ts| { assert TensorOk(ts, cs, u); }
    }
    forall c | 0 <= c < |cs'| ensures ContextOk(ts', cs', c) {
      if c < |cs| { assert ContextOk(ts, cs, c); }
    }
    forall a, b | 0 <= a < |ts'| && 0 <= b < |ts'| && ts'[a].gradCtx == ts'[b].gradCtx
      ensures a == b
    {
      if a < |ts| { assert TensorOk(ts, cs, a); }
      if b < |ts| { assert TensorOk(ts, cs, b); }
    }
    if Consistent(ts, cs) {
      forall u | 0 <= u < |ts'| && !ts'[u].isLeaf ensures ForwardHolds(ts', cs', u) {
        assert ForwardHolds(ts, cs, u);
        assert TensorOk(ts, cs, u);
        assert ContextOk(ts, cs, ts[u].gradCtx);
      }
    }
  }

  /** Appending the context of `t1 op t2` and the tensor forward returns keeps the invariant. */
  lemma AppendDerived(ts: seq<Tensor>, cs: seq<GradContext>, op: Op, t1: nat, t2: nat)
    requires WellFormed(ts, cs) && t1 < |ts| && t2 < |ts| && (op == Pow ==> ExponentOk(ts, t2))
    ensures var ts' := ts + [Tensor(OpValue(op, ts[t1].data, ts[t2].data), 0.0, false, true, |cs|)];
            var cs' := cs + [GradContext(Binary(op), [t1, t2], [ts[t1].gradCtx, ts[t2].gradCtx])];
            WellFormed(ts', cs') && (Consistent(ts, cs) ==> Consistent(ts', cs'))
  {
    var ts' := ts + [Tensor(OpValue(op, ts[t1].data, ts[t2].data), 0.0, false, true, |cs|)];
    var cs' := cs + [GradContext(Binary(op), [t1, t2], [ts[t1].gradCtx, ts[t2].gradCtx])];
    assert TensorOk(ts, cs, t1) && TensorOk(ts, cs, t2);
    forall u | 0 <= u < |ts'| ensures TensorOk(ts', cs', u) {
      if u < |ts| { assert TensorOk(ts, cs, u); }
    }
    forall d | 0 <= d < |cs'| ensures ContextOk(ts', cs', d) {
      if d < |cs| { assert ContextOk(ts, cs, d); }
    }
    forall a, b | 0 <= a < |ts'| && 0 <= b < |ts'| && ts'[a].gradCtx == ts'[b].gradCtx
      ensures a == b
    {
      if a < |ts| { assert TensorOk(ts, cs, a); }
      if b < |ts| { assert TensorOk(ts, cs, b); }
    }
    if Consistent(ts, cs) {
      forall u | 0 <= u < |ts'| && !ts'[u].isLeaf ensures ForwardHolds(ts', cs', u) {
        if u < |ts| {
          assert ForwardHolds(ts, cs, u);
          assert TensorOk(ts, cs, u);
          assert ContextOk(ts, cs, ts[u].gradCtx);
        }
      }
    }
  }

  // ---------------------------------------------------------------------
  // The arena
  // ---------------------------------------------------------------------

  class Arena {
    var tensors: seq<Tensor>
    var contexts: seq<GradContext>

    ghost predicate Valid()
      reads this
    {
      WellFormed(tensors, contexts)
    }

    constructor ()
      ensures Valid() && tensors == [] && contexts == []
    {
      tensors := [];
      contexts := [];
    }

    /**
     * `Tensor(data, require_grad)`: a fresh leaf with grad 0 whose context
     * is a fresh accumulate context owning it alone.
     */
    method NewTensor(data: real, requireGrad: bool) returns (t: nat)
      requires Valid()
      modifies this
      ensures Valid()
      ensures t == |old(tensors)|
      ensures tensors == old(tensors) + [Tensor(data, 0.0, true, requireGrad, |old(contexts)|)]
      ensures contexts == old(contexts) + [GradContext(Accumulate, [t], [])]
      ensures Consistent(old(tensors), old(contexts)) ==> Consistent(tensors, contexts)
    {
      AppendLeaf(tensors, contexts, data, requireGrad);
      t := |tensors|;
      tensors := tensors + [Tensor(data, 0.0, true, requireGrad, |contexts|)];
      contexts := contexts + [GradContext(Accumulate, [t], [])];
    }

    /**
     * The operators `+ - * **`: a raw number operand is first wrapped as a
     * leaf that needs no gradient; then a context over the two operands is
     * created and forward produces a fresh derived tensor.
     */
    method Apply(op: Op, t1: nat, other: Operand) returns (r: nat)
      requires Valid() && t1 < |tensors|
      requires other.Ref? ==> other.handle < |tensors|
      requires op == Pow ==> (if other.Num? then IsNat(other.value) else ExponentOk(tensors, other.handle))
      modifies this
      ensures Valid()
      ensures old(tensors) < tensors && old(contexts) < contexts
      ensures r == |tensors| - 1
      ensures other.Num? ==> tensors[|old(tensors)|] == Tensor(other.value, 0.0, true, false, |old(contexts)|)
      ensures var t2 := if other.Num? then |old(tensors)| else other.handle;
              var c := |contexts| - 1;
              && |tensors| == |old(tensors)| + (if other.Num? then 2 else 1)
              && |contexts| == |old(contexts)| + (if other.Num? then 2 else 1)
              && contexts[c] == GradContext(Binary(op), [t1, t2], [tensors[t1].gradCtx, tensors[t2].gradCtx])
              && tensors[r] == Tensor(OpValue(op, tensors[t1].data, tensors[t2].data), 0.0, false, true, c)
      ensures Consistent(old(tensors), old(contexts)) ==> Consistent(tensors, contexts)
    {
      var t2: nat;
      match other {
        case Num(v) => t2 := NewTensor(v, false);
        case Ref(h) => t2 := h;
      }
      AppendDerived(tensors, contexts, op, t1, t2);
      var c := |contexts|;
      contexts := contexts + [GradContext(Binary(op), [t1, t2], [tensors[t1].gradCtx, tensors[t2].gradCtx])];
      r := |tensors|;
      tensors := tensors + [Tensor(OpValue(op, tensors[t1].data, tensors[t2].data), 0.0, false, true, c)];
    }

    /**
     * `backward(g)` on context `c`: an accumulate context adds `g` to its
     * leaf's grad when that leaf requires one; a binary context forwards its
     * local gradients to the operands that require one.
     */
    method Backward(c: nat, g: real)
      requires Valid() && c < |contexts|
      modifies this
      ensures Valid() && contexts == old(contexts)
      ensures tensors == BackwardSpec(old(tensors), contexts, c, g)
      ensures Consistent(old(tensors), contexts) ==> Consistent(tensors, contexts)
      decreases c
    {
      ghost var ts0 := tensors;
      BackwardSpecConsistent(ts0, contexts, c, g);
      assert ContextOk(tensors, contexts, c);
      var x := contexts[c];
      match x.kind
      case Accumulate =>
        var t1 := x.tensors[0];
        if tensors[t1].requireGrad {
          assert TensorOk(tensors, contexts, t1);
          tensors := tensors[t1 := tensors[t1].(grad := tensors[t1].grad + g)];
          WellFormedFrame(ts0, tensors, contexts);
        }
      case Binary(op) =>
        var t1, t2 := x.tensors[0], x.tensors[1];
        if tensors[t1].requireGrad {
          var gs := LocalGrads(op, tensors[t1].data, tensors[t2].data, g);
          Backward(x.nextCtx[0], gs.0);
        }
        ghost var ts1 := tensors;
        assert SameValues(ts0, ts1);
        if tensors[t2].requireGrad {
          var gs := LocalGrads(op, tensors[t1].data, tensors[t2].data, g);
          Backward(x.nextCtx[1], gs.1);
        }
        BackwardSpecBinary(ts0, ts1, tensors, contexts, c, g);
    }

    /** `for t in tensors: t.data -= t.grad`, over the handles `xs`. */
    method StepOwned(xs: seq<nat>)
      requires Valid() && forall k :: 0 <= k < |xs| ==> xs[k] < |tensors|
      modifies this
      ensures Valid() && contexts == old(contexts) && |tensors| == |old(tensors)|
      ensures forall t :: 0 <= t < |tensors| ==> tensors[t] == Lowered(old(tensors[t]), multiset(xs)[t])
    {
      ghost var ts0 := tensors;
      for i := 0 to |xs|
        invariant Valid() && contexts == old(contexts) && |tensors| == |ts0|
        invariant forall t :: 0 <= t < |tensors| ==> tensors[t] == Lowered(ts0[t], multiset(xs[..i])[t])
      {
        var t := xs[i];
        LowerOneWellFormed(tensors, contexts, t);
        tensors := tensors[t := tensors[t].(data := tensors[t].data - tensors[t].grad)];
        assert xs[..i + 1] == xs[..i] + [t];
        forall u | 0 <= u < |tensors|
          ensures tensors[u] == Lowered(ts0[u], multiset(xs[..i + 1])[u])
        {
          if u == t { LoweredTwice(ts0[u], multiset(xs[..i])[u], 1); }
        }
      }
      assert xs[..|xs|] == xs;
    }

    /**
     * `update()` on context `c`: subtract each owned tensor's grad from its
     * data, then recurse into every predecessor context in order.  No
     * visited set: a tensor is stepped once per visit.
     */
    method Update(c: nat)
      requires Valid() && c < |contexts|
      modifies this
      ensures Valid() && contexts == old(contexts)
      ensures tensors == UpdateSpec(old(tensors), contexts, c)
      decreases c
    {
      var x := contexts[c];
      ghost var ts0 := tensors;
      assert ContextOk(tensors, contexts, c);
      StepOwned(x.tensors);
      for j := 0 to |x.nextCtx|
        invariant Valid() && contexts == old(contexts)
        invariant LoweredPrefix(ts0, tensors, contexts, c, j)
      {
        ghost var ts1 := tensors;
        Update(x.nextCtx[j]);
        LoweredPrefixStep(ts0, ts1, tensors, contexts, c, j);
      }
      LoweredPrefixEnd(ts0, tensors, contexts, c);
    }

    /**
     * `zero_grad()` on context `c`: reset each owned tensor's grad to 0,
     * then recurse into every predecessor context in order.
     */
    method ZeroGrad(c: nat)
      requires Valid() && c < |contexts|
      modifies this
      ensures Valid() && contexts == old(contexts)
      ensures tensors == ZeroGradSpec(old(tensors), contexts, c)
      ensures Consistent(old(tensors), contexts) ==> Consistent(tensors, contexts)
      decreases c
    {
      var x := contexts[c];
      ghost var ts0 := tensors;
      assert ContextOk(tensors, contexts, c);
      ZeroOwned(x.tensors);
      for j := 0 to |x.nextCtx|
        invariant Valid() && contexts == old(contexts)
        invariant ZeroedPrefix(ts0, tensors, contexts, c, j)
      {
        ghost var ts1 := tensors;
        ZeroGrad(x.nextCtx[j]);
        ZeroedPrefixStep(ts0, ts1, tensors, contexts, c, j);
      }
      ZeroedPrefixEnd(ts0, tensors, contexts, c);
      if Consistent(ts0, contexts) {
        ConsistentFrame(ts0, tensors, contexts);
      }
    }

    /** `for t in tensors: t.grad = 0`, over the handles `xs`. */
    method ZeroOwned(xs: seq<nat>)
      requires Valid() && forall k :: 0 <= k < |xs| ==> xs[k] < |tensors|
      modifies this
      ensures Valid() && contexts == old(contexts) && |tensors| == |old(tensors)|
      ensures forall t :: 0 <= t < |tensors| ==> tensors[t] == Zeroed(old(tensors[t]), multiset(xs)[t])
    {
      ghost var ts0 := tensors;
      for i := 0 to |xs|
        invariant Valid() && contexts == old(contexts) && |tensors| == |ts0|
        invariant forall t :: 0 <= t < |tensors| ==> tensors[t] == Zeroed(ts0[t], multiset(xs[..i])[t])
      {
        var t := xs[i];
        ZeroOneWellFormed(tensors, contexts, t);
        tensors := tensors[t := tensors[t].(grad := 0.0)];
        assert xs[..i + 1] == xs[..i] + [t];
      }
      assert xs[..|xs|] == xs;
    }
  }
}
