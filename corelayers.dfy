/**
 * The Dense, Flatten and Activation layers of python/flexflow/keras/layers/core.py:
 * their constructors, the shapes they infer from an input tensor, and the checks
 * of that input and the output tensor against the stored shapes.
 */
module CoreLayers {
  import opened Wrappers
  import opened CBinding
  import opened InputLayer
  import opened LayerGraph

  // Dense

  /** `Dense(units, input_shape, activation)`. */
  function NewDense(units: int, inputShape: seq<int>, activation: ActivationArg): (r: Result<LayerParams>)
    ensures r.Ok? <==> ActivationMode(activation).Ok?
    ensures r.Ok? ==> r.value.DenseParams? && r.value.outChannels == units && r.value.denseOutput == None
    ensures r.Ok? && |inputShape| == 2 ==> r.value.inChannels == inputShape[1] && r.value.denseInput == Some(inputShape)
    ensures r.Ok? && |inputShape| == 1 ==> r.value.inChannels == inputShape[0] && r.value.denseInput == Some([0] + inputShape)
    ensures r.Ok? && |inputShape| != 1 && |inputShape| != 2 ==> r.value.inChannels == 0 && r.value.denseInput == None
  {
    match ActivationMode(activation)
    case Fail(e) => Fail(e)
    case Ok(act) =>
      if |inputShape| == 2 then
        assert [inputShape[0], inputShape[1]] == inputShape;
        Ok(DenseParams(Some([inputShape[0], inputShape[1]]), None, inputShape[1], units, act))
      else if |inputShape| == 1 then
        assert [0, inputShape[0]] == [0] + inputShape;
        Ok(DenseParams(Some([0, inputShape[0]]), None, inputShape[0], units, act))
      else Ok(DenseParams(None, None, 0, units, act))
  }

  /** `Dense._calculate_inout_shape(input_tensor)`. */
  function DenseShape(p: LayerParams, input: TensorMeta): Result<LayerParams>
    requires p.DenseParams?
  {
    if input.numDims != 2 then Fail("[Dense]: shape of input tensor is wrong")
    else if |input.batchShape| < 2 then Fail("tuple index out of range")
    else
      var b := input.batchShape[0];
      var inDim := input.batchShape[1];
      if inDim == 0 then Fail("wrong in_dim")
      else if p.inChannels != 0 && p.inChannels != inDim then Fail("wrong input_w")
      else Ok(p.(denseOutput := Some([b, p.outChannels]), denseInput := Some([b, inDim]), inChannels := inDim))
  }

  /**
   * Dense needs a 2-D input with a non-zero feature count that agrees with a
   * preset in_channels, and maps (b, n) to (b, units).
   */
  lemma DenseShapeSpec(p: LayerParams, input: TensorMeta)
    requires p.DenseParams?
    ensures DenseShape(p, input).Ok? <==>
      input.numDims == 2 && |input.batchShape| >= 2 && input.batchShape[1] != 0 &&
      (p.inChannels == 0 || p.inChannels == input.batchShape[1])
    ensures DenseShape(p, input).Ok? ==>
      DenseShape(p, input).value ==
        DenseParams(Some(input.batchShape[..2]), Some([input.batchShape[0], p.outChannels]),
                    input.batchShape[1], p.outChannels, p.activation)
  {
    if DenseShape(p, input).Ok? {
      assert input.batchShape[..2] == [input.batchShape[0], input.batchShape[1]];
    }
  }

  /** `Dense._verify_inout_tensor_shape(input_tensor, output_tensor)`. */
  function DenseVerify(p: LayerParams, input: TensorMeta, output: TensorMeta): Result<()>
    requires p.DenseParams?
  {
    if input.numDims != 2 then Fail("[Dense]: check input tensor dims")
    else if p.denseInput.None? then Fail("no attribute input_shape")
    else if |input.batchShape| < 2 || |p.denseInput.value| < 2 then Fail("tuple index out of range")
    else if input.batchShape[1] != p.denseInput.value[1] then Fail("input shape mismatch")
    else if output.numDims != 2 then Fail("[Dense]: check output tensor dims")
    else if p.denseOutput.None? then Fail("no attribute output_shape")
    else if |output.batchShape| < 2 || |p.denseOutput.value| < 2 then Fail("tuple index out of range")
    else if output.batchShape[1] != p.denseOutput.value[1] then Fail("output shape mismatch")
    else Ok(())
  }

  /** Shapes Dense infers pass its check against the input and any 2-D output of `units` features. */
  lemma {:induction false} DenseShapeVerifies(p: LayerParams, input: TensorMeta, output: TensorMeta)
    requires p.DenseParams? && DenseShape(p, input).Ok?
    requires output.numDims == 2 && |output.batchShape| == 2 && output.batchShape[1] == p.outChannels
    ensures DenseVerify(DenseShape(p, input).value, input, output).Ok?
  {
    DenseShapeSpec(p, input);
  }

  /** `Dense.verify_meta_data`. */
  function DenseVerifyMetaData(p: LayerParams): Result<()>
    requires p.DenseParams?
  {
    if p.denseInput.None? then Fail("no attribute input_shape")
    else if p.denseInput == Some([0, 0]) then Fail("input shape is wrong")
    else if p.denseOutput.None? then Fail("no attribute output_shape")
    else if p.denseOutput == Some([0, 0]) then Fail("output shape is wrong")
    else if p.inChannels == 0 then Fail(" in channels is wrong")
    else if p.outChannels == 0 then Fail(" out channels is wrong")
    else Ok(())
  }

  /** After shape inference the metadata check fails only for a layer with no units. */
  lemma DenseShapeThenMetaData(p: LayerParams, input: TensorMeta)
    requires p.DenseParams? && DenseShape(p, input).Ok?
    ensures DenseVerifyMetaData(DenseShape(p, input).value).Ok? <==> p.outChannels != 0
  {
    var q := DenseShape(p, input).value;
    assert q.denseInput.value[1] != 0;
    if p.outChannels != 0 {
      assert q.denseOutput.value[1] != 0;
    }
  }

  // Flatten

  /** The product of a sequence of dims; 1 for none. */
  function Product(s: seq<int>): int {
    if |s| == 0 then 1 else Product(s[..|s| - 1]) * s[|s| - 1]
  }

  lemma ProductAppend(s: seq<int>, t: seq<int>)
    ensures Product(s + t) == Product(s) * Product(t)
  {
    if |t| > 0 {
      ProductAppend(s, t[..|t| - 1]);
      assert (s + t)[..|s + t| - 1] == s + t[..|t| - 1];
      assert Product(s) * Product(t[..|t| - 1]) * t[|t| - 1] == Product(s) * (Product(t[..|t| - 1]) * t[|t| - 1]);
    } else {
      assert s + t == s;
    }
  }

  /** The attributes Flatten records for an input tensor: the input as given and (b, product of the other dims). */
  function FlattenShape(input: TensorMeta): Result<LayerParams> {
    var s := input.batchShape;
    if |s| == 0 then Fail("tuple index out of range")
    else Ok(FlattenParams(Some(s), Some([s[0], Product(s[1..])])))
  }

  /** `Flatten._calculate_inout_shape(input_tensor)`, with its running product. */
  method FlattenCalculate(input: TensorMeta) returns (r: Result<LayerParams>)
    ensures r == FlattenShape(input)
  {
    var s := input.batchShape;
    if |s| == 0 {
      return Fail("tuple index out of range");
    }
    var flatSize := 1;
    for i := 1 to |s|
      invariant flatSize == Product(s[1..i])
    {
      assert s[1..i + 1] == s[1..i] + [s[i]];
      ProductAppend(s[1..i], [s[i]]);
      flatSize := flatSize * s[i];
    }
    assert s[1..|s|] == s[1..];
    r := Ok(FlattenParams(Some(s), Some([s[0], flatSize])));
  }

  /** Flattening keeps the number of elements per sample, and its output is 2-D with the input's batch. */
  lemma {:induction false} FlattenKeepsElements(input: TensorMeta)
    requires |input.batchShape| > 0
    ensures var q := FlattenShape(input).value;
      |q.flatOutput.value| == 2 && q.flatOutput.value[0] == input.batchShape[0] &&
      q.flatOutput.value[0] * q.flatOutput.value[1] == Product(input.batchShape)
  {
    var s := input.batchShape;
    assert s == [s[0]] + s[1..];
    ProductAppend([s[0]], s[1..]);
    assert Product([s[0]]) == s[0] by {
      assert [s[0]][..0] == [];
    }
  }

  /** `Flatten._verify_inout_tensor_shape(input_tensor, output_tensor)`. */
  function FlattenVerify(p: LayerParams, input: TensorMeta, output: TensorMeta): Result<()>
    requires p.FlattenParams?
  {
    if p.flatInput.None? then Fail("no attribute input_shape")
    else if input.numDims != |p.flatInput.value| then Fail("[Flatten]: check input tensor dims")
    else if |input.batchShape| < input.numDims then Fail("tuple index out of range")
    else if exists i :: 1 <= i < input.numDims && input.batchShape[i] != p.flatInput.value[i] then Fail("input shape mismatch")
    else if output.numDims != 2 then Fail("[Flatten]: check output tensor dims")
    else if p.flatOutput.None? then Fail("no attribute output_shape")
    else if |output.batchShape| < 2 || |p.flatOutput.value| < 2 then Fail("tuple index out of range")
    else if output.batchShape[1] != p.flatOutput.value[1] then Fail("output shape mismatch")
    else Ok(())
  }

  /** Shapes Flatten infers pass its check against the input and a 2-D output of the flattened size. */
  lemma {:induction false} FlattenShapeVerifies(input: TensorMeta, output: TensorMeta)
    requires |input.batchShape| > 0 && input.numDims == |input.batchShape|
    requires output.numDims == 2 && |output.batchShape| == 2 && output.batchShape[1] == Product(input.batchShape[1..])
    ensures FlattenVerify(FlattenShape(input).value, input, output).Ok?
  {
  }

  // Activation

  /** `Activation(type)`: only "softmax" gives the layer a type; any other name leaves `self.type` unset. */
  function NewActivation(activationType: string): (r: Result<LayerParams>)
    ensures r.Ok? <==> activationType == "softmax"
    ensures r.Ok? ==> r.value == ActivationParams("Softmax", None, None)
  {
    if activationType == "softmax" then Ok(ActivationParams("Softmax", None, None))
    else Fail("no attribute type")
  }

  /** `Activation._calculate_inout_shape(input_tensor)`: a 2-D input, passed through unchanged. */
  function ActivationShape(p: LayerParams, input: TensorMeta): (r: Result<LayerParams>)
    requires p.ActivationParams?
    ensures r.Ok? <==> input.numDims == 2
    ensures r.Ok? ==> r.value.ActivationParams? && r.value.actInput == Some(input.batchShape) && r.value.actOutput == r.value.actInput &&
                      r.value.activationType == p.activationType
  {
    if input.numDims != 2 then Fail("[Activation]: shape of input tensor is wrong")
    else Ok(p.(actInput := Some(input.batchShape), actOutput := Some(input.batchShape)))
  }

  /** `Activation.verify_meta_data`. */
  function ActivationVerifyMetaData(p: LayerParams): (r: Result<()>)
    requires p.ActivationParams?
    ensures r.Ok? <==> p.activationType == "Softmax"
  {
    if p.activationType == "Softmax" then Ok(()) else Fail("type is wrong")
  }

  /** Every Activation layer that could be constructed passes its metadata check, before and after shape inference. */
  lemma ActivationWellFormed(activationType: string, input: TensorMeta)
    requires NewActivation(activationType).Ok?
    ensures ActivationVerifyMetaData(NewActivation(activationType).value).Ok?
    ensures ActivationShape(NewActivation(activationType).value, input).Ok? ==>
      ActivationVerifyMetaData(ActivationShape(NewActivation(activationType).value, input).value).Ok?
  {
  }
}
