/**
 * The objects the Keras front end links together: layers and the tensors that flow
 * between them. The base class `Layer` (python/flexflow/keras/layers/base_layer.py)
 * is not part of this model; its fields are the ones the layer classes and the
 * models read and write.
 */
module LayerGraph {
  import opened Wrappers
  import opened CBinding
  import opened InputLayer

  /** How a layer's activation is given: None or a name. */
  datatype ActivationArg = NoActivation | ActivationName(name: string)

  /** The activation mapping shared by Conv2D and Dense: None and "relu" only. */
  function ActivationMode(a: ActivationArg): (r: Result<ActiMode>)
    ensures r.Ok? <==> a == NoActivation || a == ActivationName("relu")
    ensures r == Ok(AcModeRelu) <==> a == ActivationName("relu")
  {
    match a
    case NoActivation => Ok(AcModeNone)
    case ActivationName(name) => if name == "relu" then Ok(AcModeRelu) else Fail("activation is not supported")
  }

  /** The Python class of a layer. */
  datatype LayerKind = Conv2DKind | MaxPooling2DKind | FlattenKind | DenseKind | ActivationKind

  /**
   * The attributes each kind of layer keeps. `None` stands for an attribute the
   * constructor leaves unset (reading it raises AttributeError). MaxPooling2D is
   * defined outside this model: it keeps the window arguments the graph builder
   * reads and the output shape its own shape inference gives it, supplied with
   * the layer.
   */
  datatype LayerParams =
    | Conv2DParams(inputShape: seq<int>, outputShape: seq<int>, inChannels: int, outChannels: int,
                   kernelSize: seq<int>, stride: seq<int>, padding: seq<int>, activation: ActiMode, useBias: bool)
    | DenseParams(denseInput: Option<seq<int>>, denseOutput: Option<seq<int>>, inChannels: int, outChannels: int,
                  activation: ActiMode)
    | FlattenParams(flatInput: Option<seq<int>>, flatOutput: Option<seq<int>>)
    | ActivationParams(activationType: string, actInput: Option<seq<int>>, actOutput: Option<seq<int>>)
    | MaxPooling2DParams(poolKernel: seq<int>, poolStride: seq<int>, poolPadding: seq<int>, poolOutput: seq<int>)

  function KindOf(p: LayerParams): LayerKind {
    match p
    case Conv2DParams(_, _, _, _, _, _, _, _, _) => Conv2DKind
    case DenseParams(_, _, _, _, _) => DenseKind
    case FlattenParams(_, _) => FlattenKind
    case ActivationParams(_, _, _) => ActivationKind
    case MaxPooling2DParams(_, _, _, _) => MaxPooling2DKind
  }

  /** `output_shape` as another layer reads it, or None when the attribute is missing. */
  function OutputShapeOf(p: LayerParams): Option<seq<int>> {
    match p
    case Conv2DParams(_, out, _, _, _, _, _, _, _) => Some(out)
    case DenseParams(_, out, _, _, _) => out
    case FlattenParams(_, out) => out
    case ActivationParams(_, _, out) => out
    case MaxPooling2DParams(_, _, _, out) => Some(out)
  }

  /**
   * Whether the graph builder can read the two entries of every window argument
   * (kernel size, stride, padding) it passes to the backend's `conv2d` or `pool2d`.
   */
  predicate WindowArgsReadable(p: LayerParams) {
    match p
    case Conv2DParams(_, _, _, _, kernel, stride, padding, _, _) => |kernel| >= 2 && |stride| >= 2 && |padding| >= 2
    case MaxPooling2DParams(kernel, stride, padding, _) => |kernel| >= 2 && |stride| >= 2 && |padding| >= 2
    case _ => true
  }

  class Layer {
    const name: string
    var layerId: int
    var params: LayerParams
    var inputTensors: seq<KTensor>
    var outputTensors: seq<KTensor>
    var prevLayers: seq<Layer>
    var nextLayers: seq<Layer>

    /**
     * A layer as its constructor leaves it: unlinked, and with no id until a model
     * adds it. The constructor lives in base_layer.py, which is not part of this
     * model: the empty lists and the id -1 are assumed defaults.
     */
    constructor (name: string, params: LayerParams)
      ensures this.name == name && this.params == params && layerId == -1
      ensures inputTensors == [] && outputTensors == [] && prevLayers == [] && nextLayers == []
    {
      this.name := name;
      this.params := params;
      layerId := -1;
      inputTensors := [];
      outputTensors := [];
      prevLayers := [];
      nextLayers := [];
    }

    function Kind(): LayerKind
      reads this
    {
      KindOf(params)
    }
  }

  /**
   * A Keras tensor: its descriptor, fixed by the constructor, and the layers it is
   * linked to. `input_layers`/`output_layers` are the lists the constructor creates;
   * `fromLayer`/`toLayer` are what `set_from_layer`/`set_to_layer` record (None for 0).
   * input_layer.py's `Tensor` defines neither these two attributes nor their
   * setters; their default of None (unset) is assumed (see `Convolutional.LinkAsWritten`).
   */
  class KTensor {
    const meta: TensorMeta
    var inputLayers: seq<Layer>
    var outputLayers: seq<Layer>
    var fromLayer: Option<Layer>
    var toLayer: Option<Layer>

    constructor (meta: TensorMeta)
      ensures this.meta == meta && inputLayers == [] && outputLayers == [] && fromLayer == None && toLayer == None
    {
      this.meta := meta;
      inputLayers := [];
      outputLayers := [];
      fromLayer := None;
      toLayer := None;
    }
  }
}
