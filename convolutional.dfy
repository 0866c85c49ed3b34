/**
 * The Conv2D layer of python/flexflow/keras/layers/convolutional.py: its
 * constructor, the output-size arithmetic, the shape checks and `__call__`,
 * which links the layer into the tensor graph.
 */
module Convolutional {
  import opened Wrappers
  import opened CBinding
  import opened InputLayer
  import opened LayerGraph

  /** `math.floor(a / s)` for a non-zero stride (Python true division, then floor). */
  function FloorDiv(a: int, s: int): int
    requires s != 0
  {
    if s > 0 then a / s else (-a) / (-s)
  }

  /** FloorDiv is the floor of the rational quotient: q <= a/s < q + 1. */
  lemma FloorDivSpec(a: int, s: int)
    requires s != 0
    ensures s > 0 ==> FloorDiv(a, s) * s <= a < FloorDiv(a, s) * s + s
    ensures s < 0 ==> FloorDiv(a, s) * s >= a > FloorDiv(a, s) * s + s
  {
    if s > 0 {
      assert a == (a / s) * s + a % s;
    } else {
      var q := (-a) / (-s);
      assert -a == q * (-s) + (-a) % (-s);
      assert q * (-s) == -(q * s);
    }
  }

  /** The number of kernel positions along one axis: `1 + floor((n + 2*pad - k) / s)`. */
  function OutSize(n: int, pad: int, k: int, s: int): int
    requires s != 0
  {
    1 + FloorDiv(n + 2 * pad - k, s)
  }

  /** With a positive stride, OutSize positions of the kernel fit in the padded input and one more does not. */
  lemma OutSizeFits(n: int, pad: int, k: int, s: int)
    requires s > 0 && n + 2 * pad >= k
    ensures var o := OutSize(n, pad, k, s);
      o >= 1 && (o - 1) * s + k <= n + 2 * pad < o * s + k
  {
    FloorDivSpec(n + 2 * pad - k, s);
    var q := FloorDiv(n + 2 * pad - k, s);
    assert (q + 1 - 1) * s == q * s;
    assert (q + 1) * s == q * s + s;
    assert q >= 0 by {
      if q < 0 {
        assert q * s <= -s by { MulNeg(q, s); }
      }
    }
  }

  lemma MulNeg(q: int, s: int)
    requires q < 0 && s > 0
    ensures q * s <= -s
  {
    assert q * s == -((-q) * s);
    assert (-q) * s >= s by { assert (-q) * s == s + (-q - 1) * s; assert (-q - 1) * s >= 0; }
  }

  /** `self.input_shape`/`self.in_channels` as `calculate_inout_shape` records them before computing the output. */
  function RecordInput(p: LayerParams, d: int, w: int, h: int, b: int): LayerParams
    requires p.Conv2DParams?
  {
    p.(inputShape := [b, d, w, h], inChannels := d)
  }

  /** `calculate_inout_shape(input_d, input_w, input_h, input_b)`: the new attributes, or the check or lookup that fails. */
  function Conv2DShape(p: LayerParams, d: int, w: int, h: int, b: int): (r: Result<LayerParams>)
    requires p.Conv2DParams?
    ensures r.Ok? ==> r.value.Conv2DParams?
  {
    if w == 0 then Fail("wrong input_w")
    else if h == 0 then Fail("wrong input_h")
    else if d == 0 then Fail("wrong input_d")
    else if |p.padding| < 2 || |p.kernelSize| < 2 || |p.stride| < 2 then Fail("tuple index out of range")
    else if p.stride[0] == 0 || p.stride[1] == 0 then Fail("division by zero")
    else
      var q := RecordInput(p, d, w, h, b);
      Ok(q.(outputShape := [b, p.outChannels, OutSize(w, p.padding[0], p.kernelSize[0], p.stride[0]),
                                              OutSize(h, p.padding[1], p.kernelSize[1], p.stride[1])]))
  }

  /** The attributes after `calculate_inout_shape`, whether or not it raised. */
  function AfterShape(p: LayerParams, d: int, w: int, h: int, b: int): (q: LayerParams)
    requires p.Conv2DParams?
    ensures q.Conv2DParams?
  {
    match Conv2DShape(p, d, w, h, b)
    case Ok(q) => q
    case Fail(_) => if w == 0 || h == 0 || d == 0 then p else RecordInput(p, d, w, h, b)
  }

  /** What a successful shape computation records: the input as given, the filters as depth, and kernel positions as width and height. */
  lemma Conv2DShapeSpec(p: LayerParams, d: int, w: int, h: int, b: int)
    requires p.Conv2DParams?
    ensures Conv2DShape(p, d, w, h, b).Ok? <==>
      w != 0 && h != 0 && d != 0 && |p.padding| >= 2 && |p.kernelSize| >= 2 && |p.stride| >= 2 &&
      p.stride[0] != 0 && p.stride[1] != 0
    ensures Conv2DShape(p, d, w, h, b).Ok? ==>
      var q := Conv2DShape(p, d, w, h, b).value;
      && q.inputShape == [b, d, w, h] && q.inChannels == d
      && |q.outputShape| == 4 && q.outputShape[0] == b && q.outputShape[1] == p.outChannels
      && q.outputShape[2] == OutSize(w, p.padding[0], p.kernelSize[0], p.stride[0])
      && q.outputShape[3] == OutSize(h, p.padding[1], p.kernelSize[1], p.stride[1])
      && q.kernelSize == p.kernelSize && q.stride == p.stride && q.padding == p.padding
      && q.outChannels == p.outChannels && q.activation == p.activation && q.useBias == p.useBias
  {
  }

  /** A 28x28 image through a 3x3 kernel with stride 1 and padding 1 keeps its size. */
  lemma SamePadding(p: LayerParams, b: int)
    requires p.Conv2DParams? && p.kernelSize == [3, 3] && p.stride == [1, 1] && p.padding == [1, 1]
    ensures Conv2DShape(p, 1, 28, 28, b).Ok?
    ensures Conv2DShape(p, 1, 28, 28, b).value.outputShape == [b, p.outChannels, 28, 28]
  {
  }

  /** `Conv2D(filters, input_shape, kernel_size, strides, padding, activation, use_bias)`. */
  function NewConv2D(filters: int, inputShape: seq<int>, kernelSize: seq<int>, strides: seq<int>, padding: seq<int>,
                     activation: ActivationArg, useBias: bool): (r: Result<LayerParams>)
    ensures r.Ok? ==> r.value.Conv2DParams?
  {
    if |kernelSize| != 2 then Fail("wrong dim of kernel_size")
    else if |strides| != 2 then Fail("wrong dim of stride")
    else
      match ActivationMode(activation)
      case Fail(e) => Fail(e)
      case Ok(act) =>
        var p := Conv2DParams([0, 0, 0, 0], [0, 0, 0, 0], 0, filters, kernelSize, strides, padding, act, useBias);
        if |inputShape| == 4 then
          Conv2DShape(p, inputShape[1], inputShape[2], inputShape[3], inputShape[0])
        else if |inputShape| == 3 then
          Conv2DShape(p, inputShape[0], inputShape[1], inputShape[2], 0)
        else
          Ok(p)
  }

  /**
   * The constructor accepts exactly two-element kernel and stride tuples and a
   * supported activation; without a 3- or 4-element input shape it leaves the
   * layer shapeless (in_channels 0, both shapes all zero), and otherwise it
   * infers the shapes, with batch 0 for a 3-element shape.
   */
  lemma NewConv2DSpec(filters: int, inputShape: seq<int>, kernelSize: seq<int>, strides: seq<int>, padding: seq<int>,
                      activation: ActivationArg, useBias: bool)
    ensures var r := NewConv2D(filters, inputShape, kernelSize, strides, padding, activation, useBias);
      && (r.Ok? ==> |kernelSize| == 2 && |strides| == 2 && ActivationMode(activation).Ok?)
      && (r.Ok? ==> r.value.outChannels == filters && r.value.kernelSize == kernelSize && r.value.stride == strides &&
                    r.value.padding == padding && r.value.activation == ActivationMode(activation).value &&
                    r.value.useBias == useBias)
      && (|inputShape| != 3 && |inputShape| != 4 ==>
            (r.Ok? <==> |kernelSize| == 2 && |strides| == 2 && ActivationMode(activation).Ok?) &&
            (r.Ok? ==> r.value.inChannels == 0 && r.value.inputShape == [0, 0, 0, 0] && r.value.outputShape == [0, 0, 0, 0]))
      && (|inputShape| == 4 && r.Ok? ==>
            r.value.inputShape == inputShape && r.value.inChannels == inputShape[1])
      && (|inputShape| == 3 && r.Ok? ==>
            r.value.inputShape == [0] + inputShape && r.value.inChannels == inputShape[0])
  {
    if |kernelSize| == 2 && |strides| == 2 && ActivationMode(activation).Ok? {
      var p := Conv2DParams([0, 0, 0, 0], [0, 0, 0, 0], 0, filters, kernelSize, strides, padding,
                            ActivationMode(activation).value, useBias);
      if |inputShape| == 4 {
        Conv2DShapeSpec(p, inputShape[1], inputShape[2], inputShape[3], inputShape[0]);
      } else if |inputShape| == 3 {
        Conv2DShapeSpec(p, inputShape[0], inputShape[1], inputShape[2], 0);
      }
    }
  }

  /** `verify_meta_data`: both shapes set, both channel counts non-zero. */
  function VerifyMetaData(p: LayerParams): Result<()>
    requires p.Conv2DParams?
  {
    if p.inputShape == [0, 0, 0, 0] then Fail("[Conv2D]: input shape is wrong")
    else if p.outputShape == [0, 0, 0, 0] then Fail("[Conv2D]: output shape is wrong")
    else if p.inChannels == 0 then Fail("[Conv2D]: in channels is wrong")
    else if p.outChannels == 0 then Fail("[Conv2D]: out channels is wrong")
    else Ok(())
  }

  /** After a successful shape computation the metadata check fails only for a layer with no filters. */
  lemma ShapeThenMetaData(p: LayerParams, d: int, w: int, h: int, b: int)
    requires p.Conv2DParams? && Conv2DShape(p, d, w, h, b).Ok?
    ensures VerifyMetaData(Conv2DShape(p, d, w, h, b).value).Ok? <==> p.outChannels != 0
  {
    var q := Conv2DShape(p, d, w, h, b).value;
    assert q.inputShape[1] == d;
    if p.outChannels != 0 {
      assert q.outputShape[1] != 0;
    }
  }

  /** The shape check of `__verify_inout_tensor_shape`: rank 4 on both sides and dims 1..3 as stored (the batch is not compared). */
  function VerifyInout(p: LayerParams, input: TensorMeta, output: TensorMeta): Result<()>
    requires p.Conv2DParams?
  {
    if input.numDims != 4 then Fail("[Conv2D]: check input tensor dims")
    else if |input.batchShape| < 4 || |p.inputShape| < 4 then Fail("tuple index out of range")
    else if input.batchShape[1..4] != p.inputShape[1..4] then Fail("input shape mismatch")
    else if output.numDims != 4 then Fail("[Conv2D]: check output tensor dims")
    else if |output.batchShape| < 4 || |p.outputShape| < 4 then Fail("tuple index out of range")
    else if output.batchShape[1..4] != p.outputShape[1..4] then Fail("output shape mismatch")
    else Ok(())
  }

  /** The check accepts exactly the pairs whose dims 1..3 agree with the stored shapes, whatever their batch dims. */
  lemma VerifyInoutSpec(p: LayerParams, input: TensorMeta, output: TensorMeta)
    requires p.Conv2DParams? && |input.batchShape| >= 4 && |output.batchShape| >= 4
    requires |p.inputShape| == 4 && |p.outputShape| == 4
    ensures VerifyInout(p, input, output).Ok? <==>
      input.numDims == 4 && output.numDims == 4 &&
      (forall i :: 1 <= i < 4 ==> input.batchShape[i] == p.inputShape[i] && output.batchShape[i] == p.outputShape[i])
  {
    if input.numDims == 4 && output.numDims == 4 &&
       (forall i :: 1 <= i < 4 ==> input.batchShape[i] == p.inputShape[i] && output.batchShape[i] == p.outputShape[i]) {
      assert input.batchShape[1..4] == p.inputShape[1..4];
      assert output.batchShape[1..4] == p.outputShape[1..4];
    } else if input.numDims == 4 && output.numDims == 4 {
      var i :| 1 <= i < 4 && !(input.batchShape[i] == p.inputShape[i] && output.batchShape[i] == p.outputShape[i]);
      if input.batchShape[i] != p.inputShape[i] {
        assert input.batchShape[1..4][i - 1] != p.inputShape[1..4][i - 1];
      } else {
        assert output.batchShape[1..4][i - 1] != p.outputShape[1..4][i - 1];
      }
    }
  }

  /** The shapes `__call__` infers from an input tensor always pass the check against that tensor and the output it creates. */
  lemma {:induction false} InferredShapesVerify(p: LayerParams, input: TensorMeta)
    requires p.Conv2DParams? && input.numDims == 4 && |input.batchShape| >= 4
    requires Conv2DShape(p, input.batchShape[1], input.batchShape[2], input.batchShape[3], input.batchShape[0]).Ok?
    ensures var q := Conv2DShape(p, input.batchShape[1], input.batchShape[2], input.batchShape[3], input.batchShape[0]).value;
      VerifyInout(q, input, TensorMeta(false, None, |q.outputShape|, q.outputShape, input.dtype, None)).Ok?
  {
    var s := input.batchShape;
    Conv2DShapeSpec(p, s[1], s[2], s[3], s[0]);
    var q := Conv2DShape(p, s[1], s[2], s[3], s[0]).value;
    VerifyInoutSpec(q, input, TensorMeta(false, None, |q.outputShape|, q.outputShape, input.dtype, None));
  }

  /**
   * `calculate_inout_shape` on the layer object: the attributes as Conv2DShape
   * computes them, or, when it raises after its three checks, with the input shape
   * and in_channels already recorded.
   */
  method CalculateInoutShape(layer: Layer, d: int, w: int, h: int, b: int) returns (r: Result<()>)
    requires layer.params.Conv2DParams?
    modifies layer
    ensures layer.params == AfterShape(old(layer.params), d, w, h, b)
    ensures r.Ok? <==> Conv2DShape(old(layer.params), d, w, h, b).Ok?
    ensures unchanged(layer`inputTensors, layer`outputTensors, layer`prevLayers, layer`nextLayers, layer`layerId)
  {
    if w == 0 || h == 0 || d == 0 {
      return Fail("wrong input shape");
    }
    var p := layer.params;
    layer.params := RecordInput(p, d, w, h, b);
    match Conv2DShape(p, d, w, h, b)
    case Fail(e) =>
      r := Fail(e);
    case Ok(q) =>
      layer.params := q;
      r := Ok(());
  }

  /** The attributes `__call__` works with: recomputed from the input's dims only when in_channels is 0. */
  function CallShape(p: LayerParams, input: TensorMeta): LayerParams
    requires p.Conv2DParams? && |input.batchShape| >= 4
  {
    if p.inChannels == 0 then
      AfterShape(p, input.batchShape[1], input.batchShape[2], input.batchShape[3], input.batchShape[0])
    else p
  }

  /**
   * `Conv2D.__call__(input_tensor)`. On success: the shapes are inferred when
   * in_channels was 0, a new meta-only output tensor of the output shape and the
   * input's dtype is returned, both tensors are appended once, the output records
   * this layer as its producer, and the layer is linked to the input's producer in
   * both directions, or registered as the consumer of an `Input`.
   */
  method Call(layer: Layer, input: KTensor) returns (r: Result<KTensor>)
    requires layer.params.Conv2DParams?
    modifies layer, input, if input.fromLayer.Some? then {input.fromLayer.value} else {}
    ensures layer.params.Conv2DParams?
    ensures unchanged(layer`layerId, input`fromLayer, input`inputLayers, input`outputLayers)
    ensures old(input.fromLayer) != Some(layer) ==> layer.nextLayers == old(layer.nextLayers)
    ensures input.fromLayer.Some? && input.fromLayer.value != layer ==>
      unchanged(input.fromLayer.value`params, input.fromLayer.value`inputTensors,
                input.fromLayer.value`outputTensors, input.fromLayer.value`prevLayers,
                input.fromLayer.value`layerId)
    ensures r.Ok? ==> r.value.toLayer == None && r.value.inputLayers == [] && r.value.outputLayers == []
    ensures input.meta.numDims != 4 || |input.meta.batchShape| < 4 ==>
      r.Fail? && layer.params == old(layer.params)
    ensures r.Ok? ==>
      && input.meta.numDims == 4 && |input.meta.batchShape| >= 4
      && layer.params == CallShape(old(layer.params), input.meta)
      && fresh(r.value)
      && r.value.meta == TensorMeta(false, None, |layer.params.outputShape|, layer.params.outputShape, input.meta.dtype, None)
      && VerifyInout(layer.params, input.meta, r.value.meta).Ok?
      && layer.inputTensors == old(layer.inputTensors) + [input]
      && layer.outputTensors == old(layer.outputTensors) + [r.value]
      && r.value.fromLayer == Some(layer)
      && input.fromLayer == old(input.fromLayer)
      && (input.meta.isInput ==> input.toLayer == Some(layer) && layer.prevLayers == old(layer.prevLayers))
      && (!input.meta.isInput ==>
            && old(input.fromLayer).Some?
            && layer.prevLayers == old(layer.prevLayers) + [old(input.fromLayer).value]
            && old(input.fromLayer).value.nextLayers == old(input.fromLayer.value.nextLayers) + [layer]
            && input.toLayer == old(input.toLayer))
    ensures r.Fail? ==> layer.prevLayers == old(layer.prevLayers) && input.toLayer == old(input.toLayer)
    ensures r.Fail? ==>
      || (layer.inputTensors == old(layer.inputTensors) && layer.outputTensors == old(layer.outputTensors))
      || (&& input.meta.numDims == 4 && |input.meta.batchShape| >= 4
          && layer.params == CallShape(old(layer.params), input.meta)
          && layer.inputTensors == old(layer.inputTensors) + [input]
          && |layer.outputTensors| == |old(layer.outputTensors)| + 1)
  {
    var m := OutputMeta(layer, input.meta);
    if m.Fail? {
      return Fail(m.reason);
    }
    var output := new KTensor(m.value);
    var linked := Link(layer, input, output);
    if linked.Fail? {
      return Fail(linked.reason);
    }
    r := Ok(output);
  }

  /**
   * The checks of `__call__` and the output tensor's meta data: the input must
   * be 4-d, the shapes are inferred when in_channels is 0, and the meta-only
   * output has the output shape and the input's dtype.
   */
  method OutputMeta(layer: Layer, input: TensorMeta) returns (r: Result<TensorMeta>)
    requires layer.params.Conv2DParams?
    modifies layer
    ensures layer.params.Conv2DParams?
    ensures unchanged(layer`inputTensors, layer`outputTensors, layer`prevLayers, layer`nextLayers, layer`layerId)
    ensures input.numDims != 4 || |input.batchShape| < 4 ==> r.Fail? && layer.params == old(layer.params)
    ensures r.Ok? ==>
      && input.numDims == 4 && |input.batchShape| >= 4
      && layer.params == CallShape(old(layer.params), input)
      && r.value == TensorMeta(false, None, |layer.params.outputShape|, layer.params.outputShape, input.dtype, None)
      && VerifyInout(layer.params, input, r.value).Ok?
  {
    if input.numDims != 4 {
      return Fail("[Conv2D]: shape of input tensor is wrong");
    }
    var dims := input.batchShape;
    if |dims| < 4 {
      return Fail("tuple index out of range");
    }
    if layer.params.inChannels == 0 {
      var c := CalculateInoutShape(layer, dims[1], dims[2], dims[3], dims[0]);
      if c.Fail? {
        return Fail(c.reason);
      }
    }
    var outMeta := NewTensor(false, Some(layer.params.outputShape), None, DTypeMember(DType(input.dtype)), true, None);
    if outMeta.Fail? {
      return Fail(outMeta.reason);
    }
    var v := VerifyInout(layer.params, input, outMeta.value);
    if v.Fail? {
      return Fail(v.reason);
    }
    r := outMeta;
  }

  /**
   * The graph links `__call__` makes: both tensors appended to the layer, the
   * output produced by it, and the layer either registered as the consumer of
   * an `Input` or linked to the input's producer in both directions.
   */
  method Link(layer: Layer, input: KTensor, output: KTensor) returns (r: Result<()>)
    requires output != input
    modifies layer, input, output, if input.fromLayer.Some? then {input.fromLayer.value} else {}
    ensures layer.params == old(layer.params)
    ensures unchanged(layer`layerId, input`fromLayer, input`inputLayers, input`outputLayers)
    ensures old(input.fromLayer) != Some(layer) ==> layer.nextLayers == old(layer.nextLayers)
    ensures input.fromLayer.Some? && input.fromLayer.value != layer ==>
      unchanged(input.fromLayer.value`params, input.fromLayer.value`inputTensors,
                input.fromLayer.value`outputTensors, input.fromLayer.value`prevLayers,
                input.fromLayer.value`layerId)
    ensures unchanged(output`toLayer, output`inputLayers, output`outputLayers)
    ensures r.Ok? ==>
      && layer.inputTensors == old(layer.inputTensors) + [input]
      && layer.outputTensors == old(layer.outputTensors) + [output]
      && output.fromLayer == Some(layer)
      && input.fromLayer == old(input.fromLayer)
      && (input.meta.isInput ==> input.toLayer == Some(layer) && layer.prevLayers == old(layer.prevLayers))
      && (!input.meta.isInput ==>
            && old(input.fromLayer).Some?
            && layer.prevLayers == old(layer.prevLayers) + [old(input.fromLayer).value]
            && old(input.fromLayer).value.nextLayers == old(input.fromLayer.value.nextLayers) + [layer]
            && input.toLayer == old(input.toLayer))
    ensures r.Fail? ==> !input.meta.isInput && input.fromLayer.None?
    ensures r.Fail? ==> layer.prevLayers == old(layer.prevLayers) && input.toLayer == old(input.toLayer)
    ensures r.Fail? ==>
      && layer.inputTensors == old(layer.inputTensors) + [input]
      && layer.outputTensors == old(layer.outputTensors) + [output]
      && output.fromLayer == Some(layer)
  {
    layer.inputTensors := layer.inputTensors + [input];
    layer.outputTensors := layer.outputTensors + [output];
    output.fromLayer := Some(layer);
    if input.meta.isInput {
      input.toLayer := Some(layer);
    } else {
      if input.fromLayer.None? {
        return Fail("[Conv2D]: check input tensor");
      }
      var from := input.fromLayer.value;
      layer.prevLayers := layer.prevLayers + [from];
      from.nextLayers := from.nextLayers + [layer];
    }
    r := Ok(());
  }

  /**
   * The attributes a `Tensor` of input_layer.py has: the seven fields its
   * constructor assigns on either branch, and its one (name-mangled) method. It
   * has no `set_from_layer`, `set_to_layer`, `from_layer` or `to_layer`.
   */
  const TensorAttributes: set<string> :=
    {"ffhandle", "input_layers", "output_layers", "dtype", "batch_shape", "name", "num_dims", "_Tensor__create_ff_tensor"}

  /** Python's attribute lookup on a `Tensor`: an AttributeError for a name it does not have. */
  function TensorAttr(attr: string): (r: Result<()>)
    ensures r.Ok? <==> attr in TensorAttributes
    ensures r.Fail? ==> r.reason == "'Tensor' object has no attribute '" + attr + "'"
  {
    if attr in TensorAttributes then Ok(()) else Fail("'Tensor' object has no attribute '" + attr + "'")
  }

  /**
   * The links of `Conv2D.__call__` as written against input_layer.py's `Tensor`:
   * both tensors are appended, and the next statement, `set_from_layer` on the
   * output, raises an AttributeError; no link is made.
   */
  method LinkAsWritten(layer: Layer, input: KTensor, output: KTensor) returns (r: Result<()>)
    modifies layer
    ensures r == Fail("'Tensor' object has no attribute 'set_from_layer'")
    ensures layer.inputTensors == old(layer.inputTensors) + [input]
    ensures layer.outputTensors == old(layer.outputTensors) + [output]
    ensures unchanged(layer`params, layer`prevLayers, layer`nextLayers, layer`layerId)
  {
    layer.inputTensors := layer.inputTensors + [input];
    layer.outputTensors := layer.outputTensors + [output];
    r := TensorAttr("set_from_layer");
  }

  /** None of the four link attributes that `Conv2D.__call__` uses exists on a `Tensor`. */
  lemma LinkApiMissing(attr: string)
    requires attr in {"set_from_layer", "set_to_layer", "from_layer", "to_layer"}
    ensures TensorAttr(attr).Fail?
  {
  }
}
