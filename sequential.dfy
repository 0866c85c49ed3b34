/**
 * The Keras `Sequential` model (python/flexflow/keras/models/sequential.py):
 * adding layers, wiring them into the backend graph, creating the input, label
 * and full tensors with their data loaders, and the training driver.
 */
module KerasSequential {
  import opened Wrappers
  import opened CBinding
  import opened InputLayer
  import opened LayerGraph
  import opened Convolutional
  import opened KerasBaseModel
  import opened Calls

  /** The tensor a backend layer call consumes: the model's input tensor or the output of an earlier layer. */
  datatype GraphTensor = ModelInput | LayerOutput(layer: nat)

  /** One backend call of the graph build (`ffmodel.conv2d`, `pool2d`, `flat`, `dense` or `softmax`). */
  datatype BuildCall = BuildCall(layerId: nat, kind: LayerKind, input: GraphTensor)

  /** Layer 0 reads the model input; every later layer reads its predecessor's output. */
  function InputOf(k: nat): GraphTensor {
    if k == 0 then ModelInput else LayerOutput(k - 1)
  }

  /** The calls of a complete graph build over layers with the given attributes. */
  function Wire(ps: seq<LayerParams>): (r: seq<BuildCall>)
    ensures |r| == |ps|
    ensures forall k :: 0 <= k < |ps| ==> r[k] == BuildCall(k, KindOf(ps[k]), InputOf(k))
  {
    seq(|ps|, (k: int) requires 0 <= k < |ps| => BuildCall(k, KindOf(ps[k]), InputOf(k)))
  }

  /** The build is a chain: the first call reads the input, and each later call reads the previous call's output. */
  lemma WireChain(ps: seq<LayerParams>)
    requires |ps| > 0
    ensures Wire(ps)[0].input == ModelInput
    ensures forall k :: 0 < k < |ps| ==> Wire(ps)[k].input == LayerOutput(Wire(ps)[k - 1].layerId)
  {
  }

  lemma WirePrefix(ps: seq<LayerParams>, k: nat)
    requires k < |ps|
    ensures Wire(ps)[..k + 1] == Wire(ps)[..k] + [BuildCall(k, KindOf(ps[k]), InputOf(k))]
  {
  }

  /**
   * The checks the build makes of layer k: its stored id is k, the window
   * arguments a Conv2D or MaxPooling2D passes on have two entries each, and only
   * the last layer may be an Activation.
   */
  predicate Sound(ids: seq<int>, ps: seq<LayerParams>, k: int)
    requires 0 <= k < |ids| == |ps|
  {
    ids[k] == k && WindowArgsReadable(ps[k]) && (KindOf(ps[k]) == ActivationKind ==> k == |ids| - 1)
  }

  /** How many layers from `k` on pass the build's checks before the first one that fails. */
  function SoundPrefix(ids: seq<int>, ps: seq<LayerParams>, k: nat): (n: nat)
    requires k <= |ids| == |ps|
    ensures k <= n <= |ids|
    decreases |ids| - k
  {
    if k == |ids| || !Sound(ids, ps, k) then k else SoundPrefix(ids, ps, k + 1)
  }

  /** The build gets through exactly the layers before the first unsound one. */
  lemma {:induction false} SoundPrefixSpec(ids: seq<int>, ps: seq<LayerParams>, k: nat)
    requires k <= |ids| == |ps|
    ensures var n := SoundPrefix(ids, ps, k);
      (forall j :: k <= j < n ==> Sound(ids, ps, j)) && (n == |ids| || !Sound(ids, ps, n))
    decreases |ids| - k
  {
    if k < |ids| && Sound(ids, ps, k) {
      SoundPrefixSpec(ids, ps, k + 1);
    }
  }

  /**
   * When every id matches its position, every layer passes exactly when each
   * window argument is readable and no Activation comes before the last layer.
   */
  lemma AllSound(ids: seq<int>, ps: seq<LayerParams>)
    requires |ids| == |ps| && forall k :: 0 <= k < |ids| ==> ids[k] == k
    ensures (forall k :: 0 <= k < |ids| ==> Sound(ids, ps, k)) <==>
            (forall k :: 0 <= k < |ps| ==> WindowArgsReadable(ps[k])) &&
            (forall k :: 0 <= k < |ps| - 1 ==> KindOf(ps[k]) != ActivationKind)
  {
    if (forall k :: 0 <= k < |ps| ==> WindowArgsReadable(ps[k])) &&
       (forall k :: 0 <= k < |ps| - 1 ==> KindOf(ps[k]) != ActivationKind) {
      forall k | 0 <= k < |ids|
        ensures Sound(ids, ps, k)
      {
        assert ids[k] == k && WindowArgsReadable(ps[k]);
        if k < |ids| - 1 {
          assert KindOf(ps[k]) != ActivationKind;
        }
      }
    }
    if forall k :: 0 <= k < |ids| ==> Sound(ids, ps, k) {
      forall k | 0 <= k < |ps|
        ensures WindowArgsReadable(ps[k])
      {
        assert Sound(ids, ps, k);
      }
      forall k | 0 <= k < |ps| - 1
        ensures KindOf(ps[k]) != ActivationKind
      {
        assert Sound(ids, ps, k);
      }
    }
  }

  /**
   * With matching ids the build gets through every layer exactly when every
   * Conv2D and MaxPooling2D has two-entry kernel size, stride and padding, and no
   * Activation comes before the last layer.
   */
  lemma BuildSucceeds(ids: seq<int>, ps: seq<LayerParams>)
    requires |ids| == |ps| && forall k :: 0 <= k < |ids| ==> ids[k] == k
    ensures SoundPrefix(ids, ps, 0) == |ids| <==>
            (forall k :: 0 <= k < |ps| ==> WindowArgsReadable(ps[k])) &&
            (forall k :: 0 <= k < |ps| - 1 ==> KindOf(ps[k]) != ActivationKind)
  {
    SoundPrefixSpec(ids, ps, 0);
    AllSound(ids, ps);
  }

  /** A Conv2D whose padding has fewer than two entries stops the build at that layer. */
  lemma ShortPaddingStops(ids: seq<int>, ps: seq<LayerParams>, k: nat)
    requires |ids| == |ps| && k < |ps| && ps[k].Conv2DParams? && |ps[k].padding| < 2
    requires forall j :: 0 <= j < k ==> Sound(ids, ps, j)
    ensures SoundPrefix(ids, ps, 0) == k
  {
    SoundPrefixSpec(ids, ps, 0);
    assert !Sound(ids, ps, k);
  }

  /**
   * The loop of `_create_layer_and_init_inout()` over the layers' ids and
   * attributes in key order: one backend call per layer until one fails a
   * check; `n` is the number of layers built.
   */
  method BuildLayers(ids: seq<int>, ps: seq<LayerParams>) returns (calls: seq<BuildCall>, n: nat)
    requires |ids| == |ps|
    ensures n == SoundPrefix(ids, ps, 0) && calls == Wire(ps)[..n]
  {
    calls := [];
    n := 0;
    while n < |ids|
      invariant 0 <= n <= |ids|
      invariant calls == Wire(ps)[..n]
      invariant SoundPrefix(ids, ps, 0) == SoundPrefix(ids, ps, n)
    {
      if ids[n] != n || !WindowArgsReadable(ps[n]) || (KindOf(ps[n]) == ActivationKind && n != |ids| - 1) {
        return;
      }
      WirePrefix(ps, n);
      calls := calls + [BuildCall(n, KindOf(ps[n]), InputOf(n))];
      n := n + 1;
    }
  }

  /** The stored ids of layers 0 .. n-1. */
  function LayerIds(m: map<int, Layer>, n: nat): (r: seq<int>)
    requires forall k :: 0 <= k < n ==> k in m
    reads m.Values
    ensures |r| == n && forall k :: 0 <= k < n ==> r[k] == m[k].layerId
  {
    if n == 0 then [] else LayerIds(m, n - 1) + [m[n - 1].layerId]
  }

  /** The attributes of layers 0 .. n-1. */
  function LayerParamsOf(m: map<int, Layer>, n: nat): (r: seq<LayerParams>)
    requires forall k :: 0 <= k < n ==> k in m
    reads m.Values
    ensures |r| == n && forall k :: 0 <= k < n ==> r[k] == m[k].params
  {
    if n == 0 then [] else LayerParamsOf(m, n - 1) + [m[n - 1].params]
  }

  /** The dims `create_input_and_label_tensor` gives the input tensor: the batch size, then dims 1.. of a rank 2 or 4 shape. */
  function InputDims(batchSize: int, shape: seq<int>): Option<seq<int>> {
    if |shape| == 2 then Some([batchSize, shape[1]])
    else if |shape| == 4 then Some([batchSize, shape[1], shape[2], shape[3]])
    else None
  }

  /**
   * The batch tensor and the full tensor made for the same array agree on every
   * dim but the first, the batch size in one and the sample count in the other.
   */
  lemma BatchMatchesFull(batchSize: int, numSamples: int, a: NumpyArray)
    requires InputDims(batchSize, a.shape).Some? && a.dtype == "float32"
    ensures FullTensor(numSamples, a).Ok?
    ensures var d := InputDims(batchSize, a.shape).value; var f := FullTensor(numSamples, a).value;
      |f.dims| == |d| && d[0] == batchSize && f.dims[0] == numSamples && f.dims[1..] == d[1..] && f.dtype == DtFloat
  {
    FullTensorSpec(numSamples, a);
    var d := InputDims(batchSize, a.shape).value;
    assert d == [batchSize] + a.shape[1..];
  }

  /** Whether a predecessor's `output_shape` exists and has at least `n` dims to index. */
  predicate HasDims(out: Option<seq<int>>, n: nat) {
    out.Some? && n <= |out.value|
  }

  /**
   * `add` reading a predecessor's `output_shape` up to index n-1: AttributeError
   * when the attribute is missing, IndexError when it is too short.
   */
  function ReadPrevShape(out: Option<seq<int>>, n: nat): (r: Result<()>)
    ensures r.Ok? <==> HasDims(out, n)
  {
    if out.None? then Fail("no attribute output_shape")
    else if |out.value| < n then Fail("tuple index out of range")
    else Ok(())
  }

  /** A non-first Conv2D's shapes from its predecessor's output shape (depth, width, height, batch = dims 1, 2, 3, 0). */
  function ChainedConv2D(p: LayerParams, prevOut: Option<seq<int>>): (LayerParams, bool)
    requires p.Conv2DParams?
  {
    if prevOut.None? || |prevOut.value| < 4 then (p, false)
    else
      var s := prevOut.value;
      (AfterShape(p, s[1], s[2], s[3], s[0]), Conv2DShape(p, s[1], s[2], s[3], s[0]).Ok?)
  }

  class Sequential {
    const batchSize: int
    var layers: map<int, Layer>
    var nbLayers: int
    var inputTensor: Option<BackendTensor>
    var outputTensor: Option<GraphTensor>
    var labelTensor: Option<BackendTensor>
    var fullInputTensor: Option<BackendTensor>
    var fullLabelTensor: Option<BackendTensor>
    var numSamples: int
    var dataloaders: seq<SingleDataLoader>
    var dataloadersDim: seq<int>

    /**
     * Layers are stored under the keys 0 .. nbLayers-1 (the order `add` inserted
     * them), and each loader has its rank recorded at the same position.
     */
    ghost predicate Valid()
      reads this
    {
      0 <= nbLayers &&
      (forall k :: k in layers <==> 0 <= k < nbLayers) &&
      |dataloaders| == |dataloadersDim| &&
      forall i :: 0 <= i < |dataloaders| ==> dataloadersDim[i] == dataloaders[i].fullTensor.numDims
    }

    /** Every stored layer carries the id of its key. */
    predicate IdsMatch()
      reads this, layers.Values
    {
      forall k :: k in layers ==> layers[k].layerId == k
    }

    constructor (batchSize: int)
      ensures this.batchSize == batchSize && Valid() && IdsMatch()
      ensures layers == map[] && nbLayers == 0 && numSamples == 0 && dataloaders == [] && dataloadersDim == []
      ensures inputTensor == None && outputTensor == None && labelTensor == None
      ensures fullInputTensor == None && fullLabelTensor == None
    {
      this.batchSize := batchSize;
      layers := map[];
      nbLayers := 0;
      inputTensor := None;
      outputTensor := None;
      labelTensor := None;
      fullInputTensor := None;
      fullLabelTensor := None;
      numSamples := 0;
      dataloaders := [];
      dataloadersDim := [];
    }

    /**
     * `add(layer)`: the layer is stored under the next id and takes that id; a
     * non-first Conv2D infers its shapes from its predecessor's output, a
     * MaxPooling2D or Flatten may not come first, and every later layer but an
     * Activation reads its predecessor's output shape.
     */
    method Add(layer: Layer) returns (r: Result<()>)
      requires Valid()
      modifies this`layers, this`nbLayers, layer
      ensures Valid()
      ensures layers == old(layers)[old(nbLayers) := layer] && nbLayers == old(nbLayers) + 1
      ensures layer.layerId == old(nbLayers) && layer.Kind() == old(layer.Kind())
      ensures unchanged(layer`inputTensors, layer`outputTensors, layer`prevLayers, layer`nextLayers)
      ensures old(layer.Kind()) == Conv2DKind && old(nbLayers) > 0 ==>
        (layer.params, r.Ok?) == ChainedConv2D(old(layer.params), old(OutputShapeOf(layers[nbLayers - 1].params)))
      ensures !(old(layer.Kind()) == Conv2DKind && old(nbLayers) > 0) ==> layer.params == old(layer.params)
      ensures old(nbLayers) == 0 ==> (r.Ok? <==> old(layer.Kind()) != MaxPooling2DKind && old(layer.Kind()) != FlattenKind)
      ensures old(nbLayers) > 0 && old(layer.Kind()) == MaxPooling2DKind ==>
        (r.Ok? <==> HasDims(old(OutputShapeOf(layers[nbLayers - 1].params)), 4))
      ensures old(nbLayers) > 0 && old(layer.Kind()) == FlattenKind ==>
        (r.Ok? <==> HasDims(old(OutputShapeOf(layers[nbLayers - 1].params)), 0))
      ensures old(nbLayers) > 0 && old(layer.Kind()) == DenseKind ==>
        (r.Ok? <==> HasDims(old(OutputShapeOf(layers[nbLayers - 1].params)), 2))
      ensures old(layer.Kind()) == ActivationKind ==> r.Ok?
      ensures old(IdsMatch()) && (forall k :: k in old(layers) ==> old(layers)[k] != layer) ==> IdsMatch()
      ensures forall k :: k in old(layers) && old(layers)[k] == layer ==> !IdsMatch()
    {
      ghost var oldLayers := layers;
      var id := nbLayers;
      layers := layers[id := layer];
      layer.layerId := id;
      nbLayers := nbLayers + 1;
      r := Ok(());
      if layer.params.Conv2DParams? {
        if id > 0 {
          var prev := layers[id - 1];
          var out := OutputShapeOf(prev.params);
          if out.None? {
            r := Fail("no attribute output_shape");
          } else if |out.value| < 4 {
            r := Fail("tuple index out of range");
          } else {
            var s := out.value;
            r := CalculateInoutShape(layer, s[1], s[2], s[3], s[0]);
          }
        }
      } else if layer.params.MaxPooling2DParams? {
        if id == 0 {
          r := Fail("maxpool2d can not be the 1st layer");
        } else {
          r := ReadPrevShape(OutputShapeOf(layers[id - 1].params), 4);
        }
      } else if layer.params.FlattenParams? {
        if id == 0 {
          r := Fail("flatten can not be the 1st layer");
        } else {
          r := ReadPrevShape(OutputShapeOf(layers[id - 1].params), 0);
        }
      } else if layer.params.DenseParams? {
        if id > 0 {
          r := ReadPrevShape(OutputShapeOf(layers[id - 1].params), 2);
        }
      }
      forall k | k in oldLayers && oldLayers[k] == layer
        ensures !IdsMatch()
      {
        assert layers[k] == layer && layer.layerId != k;
      }
    }

    /**
     * `_create_layer_and_init_inout()`: layers in id order, each fed by its
     * predecessor, issuing one backend call per layer until a check fails; on
     * success the model output is the last layer's.
     */
    method CreateLayerAndInitInout() returns (calls: seq<BuildCall>, r: Result<()>)
      requires Valid()
      modifies this`outputTensor
      ensures var ids := old(LayerIds(layers, nbLayers)); var ps := old(LayerParamsOf(layers, nbLayers));
        var n := SoundPrefix(ids, ps, 0);
        && calls == Wire(ps)[..n]
        && (r.Ok? <==> n == nbLayers)
        && outputTensor == (if r.Fail? then old(outputTensor) else if nbLayers == 0 then None else Some(LayerOutput(nbLayers - 1)))
    {
      var ids := LayerIds(layers, nbLayers);
      var ps := LayerParamsOf(layers, nbLayers);
      var n;
      calls, n := BuildLayers(ids, ps);
      if n < nbLayers {
        return calls, Fail(if ids[n] != n then "wrong layer id"
                           else if !WindowArgsReadable(ps[n]) then "list index out of range"
                           else "softmax is not in the last layer");
      }
      outputTensor := if nbLayers == 0 then None else Some(LayerOutput(nbLayers - 1));
      r := Ok(());
    }

    /** `create_input_and_label_tensor(input_shape, label_shape)`; `label_shape` is not used. */
    method CreateInputAndLabelTensor(inputShape: seq<int>, labelShape: seq<int>)
      modifies this`inputTensor, this`labelTensor
      ensures InputDims(batchSize, inputShape).Some? ==>
        inputTensor == Some(BackendTensor(|inputShape|, InputDims(batchSize, inputShape).value, DtFloat))
      ensures InputDims(batchSize, inputShape).None? ==> inputTensor == old(inputTensor)
      ensures labelTensor == Some(BackendTensor(2, [batchSize, 1], DtInt32))
    {
      var dims := InputDims(batchSize, inputShape);
      if dims.Some? {
        inputTensor := Some(BackendTensor(|inputShape|, dims.value, DtFloat));
      }
      labelTensor := Some(BackendTensor(2, [batchSize, 1], DtInt32));
    }

    /** `create_single_data_loader(batch_tensor, full_array)`. */
    method CreateSingleDataLoader(batchTensor: Option<BackendTensor>, a: NumpyArray) returns (r: Result<BackendTensor>)
      requires Valid()
      modifies this`dataloaders, this`dataloadersDim
      ensures Valid()
      ensures r == FullTensor(numSamples, a)
      ensures r.Ok? ==> (dataloaders == old(dataloaders) + [SingleDataLoader(batchTensor, r.value, numSamples, r.value.dtype)]
                         && dataloadersDim == old(dataloadersDim) + [|a.shape|])
      ensures r.Fail? ==> dataloaders == old(dataloaders) && dataloadersDim == old(dataloadersDim)
    {
      r := FullTensor(numSamples, a);
      if r.Ok? {
        FullTensorSpec(numSamples, a);
        dataloaders := dataloaders + [SingleDataLoader(batchTensor, r.value, numSamples, r.value.dtype)];
        dataloadersDim := dataloadersDim + [|a.shape|];
      }
    }

    /** `create_data_loaders(x_train, y_train)`: the sample count from x_train, then an input loader and a label loader. */
    method CreateDataLoaders(x: NumpyArray, y: NumpyArray) returns (r: Result<()>)
      requires Valid()
      modifies this`numSamples, this`fullInputTensor, this`fullLabelTensor, this`dataloaders, this`dataloadersDim
      ensures Valid()
      ensures r.Ok? <==> |x.shape| > 0 && FullTensor(x.shape[0], x).Ok? && FullTensor(x.shape[0], y).Ok?
      ensures |x.shape| > 0 ==> numSamples == x.shape[0]
      ensures |x.shape| == 0 ==> numSamples == old(numSamples)
      ensures r.Fail? ==> fullLabelTensor == old(fullLabelTensor)
      ensures r.Fail? && !(|x.shape| > 0 && FullTensor(x.shape[0], x).Ok?) ==> fullInputTensor == old(fullInputTensor)
      ensures r.Ok? ==>
        && fullInputTensor == Some(FullTensor(x.shape[0], x).value)
        && fullLabelTensor == Some(FullTensor(x.shape[0], y).value)
        && dataloaders == old(dataloaders) +
             [SingleDataLoader(inputTensor, fullInputTensor.value, numSamples, fullInputTensor.value.dtype),
              SingleDataLoader(labelTensor, fullLabelTensor.value, numSamples, fullLabelTensor.value.dtype)]
        && dataloadersDim == old(dataloadersDim) + [|x.shape|, |y.shape|]
      ensures r.Fail? && |x.shape| > 0 && FullTensor(x.shape[0], x).Ok? ==>
        && fullInputTensor == Some(FullTensor(x.shape[0], x).value)
        && dataloaders == old(dataloaders) +
             [SingleDataLoader(inputTensor, fullInputTensor.value, numSamples, fullInputTensor.value.dtype)]
        && dataloadersDim == old(dataloadersDim) + [|x.shape|]
      ensures r.Fail? && !(|x.shape| > 0 && FullTensor(x.shape[0], x).Ok?) ==>
        dataloaders == old(dataloaders) && dataloadersDim == old(dataloadersDim)
    {
      if |x.shape| == 0 {
        return Fail("tuple index out of range");
      }
      numSamples := x.shape[0];
      var full := CreateSingleDataLoader(inputTensor, x);
      if full.Fail? {
        return Fail(full.reason);
      }
      fullInputTensor := Some(full.value);
      var labels := CreateSingleDataLoader(labelTensor, y);
      if labels.Fail? {
        return Fail(labels.reason);
      }
      fullLabelTensor := Some(labels.value);
      r := Ok(());
    }

    /**
     * `train(epochs)`: the training trace, then the final report, which reads
     * `iterations` (unset when no epoch ran) and maps the label tensor.
     */
    method Train(epochs: int) returns (calls: seq<Call>, r: Result<()>)
      ensures calls == TrainingTrace(|dataloaders|, numSamples, batchSize, epochs)
      ensures r.Ok? <==> epochs > 0 && batchSize != 0 && labelTensor.Some?
    {
      var outcome;
      calls, outcome := TrainingLoop(|dataloaders|, numSamples, batchSize, epochs);
      if outcome.Fail? {
        return calls, Fail(outcome.reason);
      }
      if outcome.value.None? {
        return calls, Fail("local variable 'iterations' referenced before assignment");
      }
      if labelTensor.None? {
        return calls, Fail("'int' object has no attribute 'inline_map'");
      }
      r := Ok(());
    }
  }
}
