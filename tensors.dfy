/**
  Tensors as symbolic terms over the tensor runtime's primitives.

  A tensor records which primitive produced it and from which operands, and
  nothing about its numbers: `cabs`, `quantize_active`, `quantize_weight`,
  `conv2d`, `bias_add` and the activation stay uninterpreted, so whatever is
  proved about a term holds for every numeric meaning given to them.
*/
module Tensors {
  import opened Wrappers

  /** An activation function, known to the layer only by its `__name__`. */
  datatype Activation = Activation(name: string)

  datatype Tensor =
    | Input(id: nat)                                  // a tensor handed in by the caller
    | Parameter(name: string, shape: seq<int>)        // a weight returned by `_get_weights`
    | Cabs(x: Tensor)
    | QuantizeActive(x: Tensor, bits: int)
    | QuantizeWeight(x: Tensor, bits: int)
    | Conv2d(x: Tensor, filters: Tensor, strides: seq<int>, padding: string,
             dataFormat: string, dilations: seq<int>, opName: Option<string>)
    | BiasAdd(x: Tensor, bias: Tensor, dataFormat: string)
    | Activate(act: Activation, x: Tensor)

  /** The kinds of primitive a tensor can come from. */
  datatype Op = CabsOp | QuantizeActiveOp | QuantizeWeightOp | Conv2dOp | BiasAddOp | ActivateOp

  /**
    The primitives met along the data operand (`x`) of `t`, outermost first:
    the order in which they were applied to the input, read backwards.
  */
  function DataPath(t: Tensor): (path: seq<Op>)
    ensures t.Input? || t.Parameter? <==> path == []
  {
    match t
    case Input(_) => []
    case Parameter(_, _) => []
    case Cabs(x) => [CabsOp] + DataPath(x)
    case QuantizeActive(x, _) => [QuantizeActiveOp] + DataPath(x)
    case QuantizeWeight(x, _) => [QuantizeWeightOp] + DataPath(x)
    case Conv2d(x, _, _, _, _, _, _) => [Conv2dOp] + DataPath(x)
    case BiasAdd(x, _, _) => [BiasAddOp] + DataPath(x)
    case Activate(_, x) => [ActivateOp] + DataPath(x)
  }

  /** The convolution `t` was computed from, looking through a bias-add and an activation. */
  function ConvolutionOf(t: Tensor): (c: Option<Tensor>)
    ensures c.Some? ==> c.value.Conv2d?
  {
    match t
    case Conv2d(_, _, _, _, _, _, _) => Some(t)
    case BiasAdd(x, _, _) => ConvolutionOf(x)
    case Activate(_, x) => ConvolutionOf(x)
    case _ => None
  }

  /** The bias added on the way to `t`, looking through an activation. */
  function BiasOf(t: Tensor): (b: Option<Tensor>)
  {
    match t
    case BiasAdd(_, bias, _) => Some(bias)
    case Activate(_, x) => BiasOf(x)
    case _ => None
  }

  /** The bias-add node on the way to `t`, looking through an activation. */
  function BiasAddOf(t: Tensor): (n: Option<Tensor>)
    ensures n.Some? ==> n.value.BiasAdd? && BiasOf(t) == Some(n.value.bias)
  {
    match t
    case BiasAdd(_, _, _) => Some(t)
    case Activate(_, x) => BiasAddOf(x)
    case _ => None
  }

  /** A convolution of quantized cabs activations adds three primitives to the input's path. */
  lemma ConvolutionPath(x: Tensor, bits: int, conv: Tensor)
    requires conv.Conv2d? && conv.x == QuantizeActive(Cabs(x), bits)
    ensures DataPath(conv) == [Conv2dOp, QuantizeActiveOp, CabsOp] + DataPath(x)
  {
    assert DataPath(Cabs(x)) == [CabsOp] + DataPath(x);
    assert DataPath(conv.x) == [QuantizeActiveOp, CabsOp] + DataPath(x);
  }

  /** An optional bias-add and an optional activation on top of `conv` show up at the front of its path. */
  lemma WrapPath(conv: Tensor, withBias: bool, biased: Tensor, withAct: bool, out: Tensor)
    requires if withBias then biased.BiasAdd? && biased.x == conv else biased == conv
    requires if withAct then out.Activate? && out.x == biased else out == biased
    ensures DataPath(out) == (if withAct then [ActivateOp] else [])
                             + (if withBias then [BiasAddOp] else []) + DataPath(conv)
  {
  }
}
