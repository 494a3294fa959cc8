# Scalar reverse-mode autodiff (tnn)

This project models the core of `tnn`, a small scalar autodiff engine, and proves properties of the model.

**Tensors and contexts.**
- A `Tensor` holds one number `data`, a gradient `grad`, an `is_leaf` flag, a `require_grad` flag and its gradient context `grad_ctx`.
- A freshly built tensor is a leaf whose context is an *accumulate context* owning it alone.

**The operators `+ - * **`.**
- A raw number operand is first wrapped as a leaf that needs no gradient.
- The operator then creates an Add, Sub, Mul or Pow context over the two operands.
- That context's `forward` returns a new derived tensor: not a leaf, requires a gradient, holds the result, and has the context as its `grad_ctx`.
- `forward` also records the operands' own contexts as `next_ctx`.

**The walks.** A context supports three recursive walks:
- `backward(g)`: an accumulate context adds `g` to its leaf's grad when the leaf requires one. A binary context passes its local gradients down to the operands that require one:
  - Add sends `g, g`;
  - Sub sends `g, -g`;
  - Mul sends `g*y, g*x`;
  - Pow sends `g*y*x**(y-1)` to the base and `g*x**y` to the exponent.
- `update()`: subtracts each owned tensor's grad from its data, then walks every `next_ctx` in turn.
- `zero_grad()`: resets each owned tensor's grad to 0, then walks every `next_ctx` in turn.

**The loss.** `MSE(t1, t2)` is `(t1 - t2) ** 2`.

**How the model represents this.**
- All tensors and contexts live in one `Autograd.Arena`, a class with two sequence fields. Entities refer to each other by integer handle, which models Python object identity and aliasing.
- Each operator and each walk is a method on the arena. Each method is proved against a specification function of the old state:
  - `BackwardSpec` adds `Contrib`, the amount backward gives each tensor;
  - `UpdateSpec` and `ZeroGradSpec` apply a step once per `Visits`, the number of times a walk visits a context that owns the tensor.
- Those functions are then related to two independent definitions:
  - the partial derivative `Partial` of the expression value `Eval` that is recomputed from the leaves (the chain rule);
  - the number of paths `Paths` in the context graph.

**The invariant `WellFormed`.** It is kept by every method:
- every context is created after the contexts it points to, so the graph is acyclic;
- each tensor has its own context;
- a leaf's context is an accumulate context owning it alone;
- a derived tensor keeps grad 0;
- every binary context points at its operands' contexts.

**The invariant `Consistent`.** Every derived tensor still holds the value its context computes from its operands. The operators, `backward` and `zero_grad` keep it; `update` does not.

## Model

| member | source | states |
|---|---|---|
| Autograd.NatOf | tnn/tensor.py:154 | a float exponent that holds a natural number is read back as exactly that natural number |
| GraphProperties.PowerOfOneZero | tnn/tensor.py:154 | about `Autograd.Power`, Python's `x ** k` for a natural exponent: `1 ** k` is 1, and `0 ** k` is 0 for k > 0 |
| GraphProperties.PowerAdd | tnn/tensor.py:154 | about `Autograd.Power`: `x ** 0` is 1, and `x ** (a + b)` is `x ** a * x ** b` for natural a and b |
| GraphProperties.PowGradAsWritten | tnn/tensor.py:162 | about `Autograd.PowBaseFactor` inside `Autograd.LocalGrads`: for a natural exponent `y >= 1` the base gradient is exactly backward's expression `g * y * x ** (y - 1)`; for `y = 0` it is 0, which is Python's value except at base 0, where Python raises (see "Left out") |
| Autograd.Arena.constructor | tnn/tensor.py:6 | the empty arena, before any `Tensor(...)` is built: no tensor, no context, and the arena invariant holds |
| Autograd.Arena.NewTensor | tnn/tensor.py:7-12 | appends a leaf with the given data, grad 0 and the given require_grad flag, together with a fresh accumulate context that owns only that leaf and has no predecessors; nothing else changes; the invariant and consistency are kept |
| Autograd.Arena.Apply | tnn/tensor.py:14-36 | a raw-number operand first becomes a fresh leaf that needs no gradient; then a context is appended over the two operands whose predecessors are the operands' contexts; the result is a derived tensor (not a leaf, requires a gradient, grad 0) whose data is the operator applied to the operands' data; existing entries are unchanged; the invariant and consistency are kept |
| Autograd.AppendDerived | tnn/tensor.py:96-101 | the context and tensor that forward appends keep the arena invariant; when the arena was consistent it stays consistent |
| Autograd.AppendLeaf | tnn/tensor.py:7-12 | a fresh leaf and its accumulate context keep the arena invariant and consistency |
| Autograd.Arena.Backward | tnn/tensor.py:84-87 | the accumulate case adds g to the leaf's grad only when the leaf requires a gradient; the binary case sends its local gradients only to the operands that require one (lines 103-107, 122-126, 141-145 and 160-164); the arena ends up exactly as BackwardSpec of the old arena: each tensor's grad is increased by Contrib, and the contexts are unchanged; a consistent arena stays consistent |
| Autograd.WellFormedFrame | tnn/tensor.py:87 | changing only the data and grad of leaves that require a gradient keeps the arena invariant |
| Autograd.ContribFrame | tnn/tensor.py:103-107 | what backward gives a tensor does not depend on the grads already accumulated |
| Autograd.Arena.StepOwned | tnn/tensor.py:65-66 | each listed tensor has its grad subtracted from its data once per listing, and nothing else changes |
| Autograd.Arena.Update | tnn/tensor.py:64-68 | the arena ends up as UpdateSpec of the old arena: each tensor's data is lowered by its grad once per visit of a context owning it; grads and contexts are unchanged |
| Autograd.Arena.ZeroOwned | tnn/tensor.py:71-72 | each listed tensor's grad becomes 0; data and every other tensor are unchanged |
| Autograd.Arena.ZeroGrad | tnn/tensor.py:70-74 | the arena ends up as ZeroGradSpec of the old arena: a tensor's grad becomes 0 exactly when the walk visits a context owning it; nothing else changes; a consistent arena stays consistent |
| GraphProperties.LocalGradsAreDerivatives | tnn/tensor.py:103-145 | about `Autograd.OpValue` (the value each forward computes) and `Autograd.LocalGrads` (the gradients each backward sends): the local gradients of Add, Sub and Mul are the partial derivatives, so changing the operands by h and k changes the value by `h*gs.0 + k*gs.1`, plus `h*k` for Mul |
| GraphProperties.PowBaseRule | tnn/tensor.py:160-162 | the gradient Pow sends to its base, `y * x**(y-1)`, is the derivative of `x**y` for natural y: `(x+h)**y` is `x**y + h*factor + h²*rest` |
| GraphProperties.PowBaseStep | tnn/tensor.py:160-162 | the inductive step of that expansion, from exponent y-1 to exponent y |
| GraphProperties.ContribOnlyTrainable | tnn/tensor.py:84-87 | backward adds nothing to a tensor that is not a leaf requiring a gradient |
| GraphProperties.BackwardOnlyTouchesLeafGrads | tnn/tensor.py:84-87 | backward changes no data, flag or context; it changes only the grads of leaves that require a gradient; derived tensors keep grad 0 |
| GraphProperties.BackwardOverLeaves | tnn/tensor.py:103-164 | backward on one operator over two leaves adds each position's local gradient to that operand when it requires a gradient (both local gradients when the two operands are the same leaf), and adds nothing to any other tensor |
| GraphProperties.EvalData | tnn/tensor.py:96-101 | in a consistent arena, a tensor's data equals its expression re-evaluated from the leaves |
| GraphProperties.ChainRule | tnn/tensor.py:84-164 | in a consistent arena, backward(g) from any context adds to each leaf that requires a gradient exactly g times the partial derivative of the context's value with respect to that leaf, summed over every path |
| GraphProperties.LocalChain | tnn/tensor.py:103-164 | one step of the chain rule: the local gradients `Autograd.LocalGrads` of Add, Sub, Mul and Pow, applied to the operands' derivatives, match the sum, difference, product and power rules over the values `Autograd.OpValue` |
| GraphProperties.PathsBelow | tnn/tensor.py:98 | a context can reach only contexts created before it |
| GraphProperties.VisitsFormula | tnn/tensor.py:64-68 | a walk from c visits a context owning tensor t once per path from c to t's context, and once more for a leaf, because the leaf's accumulate context owns it as well; the count is one less when c is t's own context |
| GraphProperties.VisitedIffReachable | tnn/tensor.py:70-74 | update and zero_grad touch a tensor if and only if its context is reachable, except for the tensor that c itself produced |
| GraphProperties.UpdateLowersLeaves | tnn/tensor.py:64-68 | update lowers a trainable leaf's data by `(2*paths - [c is its own context]) * grad`, keeps every grad, and leaves every tensor that is not a trainable leaf unchanged |
| GraphProperties.OperandLeafSteppedTwice | tnn/tensor.py:64-68 | for `r = a op b` over two distinct leaves, update from r's context lowers an operand's data by twice its grad |
| GraphProperties.RootUntouched | tnn/tensor.py:64-74 | update and zero_grad from a derived tensor's context never touch that tensor |
| GraphProperties.ZeroGradProperties | tnn/tensor.py:70-74 | zero_grad clears the grad of every leaf whose context is reachable, changes no data, and a second run changes nothing |
| LossFn.MSE | tnn/loss_fn.py:3-4 | appends three tensors and three contexts: `t1 - t2`, a leaf 2 that needs no gradient, and the Pow result; the result holds `(x-y)*(x-y)`; the invariant and consistency are kept |
| LossFn.SquareIsPower | tnn/loss_fn.py:4 | `x ** 2` is `x * x` |
| LossFn.SquareGrad | tnn/loss_fn.py:4 | the gradient `** 2` sends to its base `x - y` is `2*(x-y)*g` |
| LossFn.MSEBackward | tnn/loss_fn.py:3-4 | backward from the loss sends `2*(x-y)*g` into t1 and its negation into t2, each only when that operand requires a gradient |
| LossFn.MSELeafGradients | tnn/loss_fn.py:3-4 | for leaf operands, backward adds `2*(x-y)*g` to t1's grad and `-2*(x-y)*g` to t2's grad (each when it requires a gradient), leaves the exponent leaf unchanged, and changes no data |
| LossFn.MSEChainRule | tnn/loss_fn.py:3-4 | in a consistent arena, the loss's backward gives each trainable leaf `G*dt1/dn - G*dt2/dn` with `G = 2*(x-y)*g` |
| Examples.AddExample | tnn/tensor.py:14-18 | 3 + 4 is 7; backward(1) gives both operands grad 1 |
| Examples.SubExample | tnn/tensor.py:122-126 | 3 - 4 is -1; backward(2) gives a grad 2; b, which needs no gradient, keeps grad 0 |
| Examples.MulByNumberExample | tnn/tensor.py:26-30 | 3 * 5.0 is 15; a gets grad 5; the wrapped constant keeps grad 0 |
| Examples.SquareExample | tnn/tensor.py:141-145 | a * a with a = 3 is 9; backward(1) gives a grad 6, one contribution from each path |
| Examples.AccumulateExample | tnn/tensor.py:84-87 | two backward calls accumulate: grad 12 |
| Examples.MseExample | tnn/loss_fn.py:3-4 | MSE(5, 2) is 9 with grads 6 and -6 |
| Examples.UpdateAfterAddExample | tnn/tensor.py:64-68 | after backward on `a + b`, update lowers a from 3 to 1 because a is stepped twice; the sum itself is not touched |
| Examples.ZeroGradExample | tnn/tensor.py:70-74 | zero_grad after backward on `a * b` resets both grads to 0 and keeps the data |

## Left out

- Floating point: data and grads are mathematical reals; rounding, infinities and NaN are not modelled.
- `__truediv__` (tnn/tensor.py:38-44) is not modelled. It raises to the power -1, and the model has only natural exponents.
- Autograd.Arena.Apply: requires a Pow exponent to be a leaf that needs no gradient and holds a natural number (the invariant ExponentOk). The source accepts any float exponent, including a derived or trainable one. Real powers and logarithms are outside this model.
- GraphProperties.ChainRule: is proved only under ExponentOk. The gradient the source sends to a Pow exponent, `g * x ** y` (lines 163-164), has no logarithm factor and is not the derivative. The model keeps the code's rule in LocalGrads, but well-formed arenas never reach it.
- Autograd.PowBaseFactor: for exponent 0 it yields 0. Python evaluates `0 * x ** -1`, which is also 0 except when the base is 0, where it raises ZeroDivisionError. That error is not modelled.
- The accumulate context that `Tensor(...)` creates inside each `forward` (lines 97, 116, 135, 154) is overwritten at once and never reachable. The model does not materialise it.
- `GradContext.forward`/`backward` raising NotImplementedError (lines 58-62) are abstract base methods. They are not modelled because every concrete context overrides them.
- `__str__` (lines 46-48) is formatting only.
- The unused imports (lines 2-3) are not modelled.
- Type checks on the operand (`isinstance`) are reduced to the `Operand` datatype: a number or a tensor handle.
- `require_grad` defaults to false in the source. In the model it is an explicit parameter of `NewTensor`.
- `update` makes derived tensors' data stale. It keeps WellFormed but not Consistent, so the chain rule holds only until the next update.
- Python's recursion limit: backward, update and zero_grad recurse one frame per context level (tnn/tensor.py:68, 74, 105, 124, 143, 162), so a graph about 1000 levels deep raises RecursionError. The model's walks have no depth bound.
