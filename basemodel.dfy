/**
 * The state and the training driver of the Keras `BaseModel`
 * (python/flexflow/keras/models/base_model.py), together with the parts it shares
 * with `Sequential`: the data-loader tensor rules and the order of the calls
 * that training issues.
 */
module KerasBaseModel {
  import opened Wrappers
  import opened CBinding
  import opened InputLayer
  import opened LayerGraph
  import opened Calls

  /** What a data loader reads from a numpy array: its shape and its dtype name. */
  datatype NumpyArray = NumpyArray(shape: seq<int>, dtype: string)

  /** The arguments of `ff.SingleDataLoader(ffmodel, batch_tensor, full_tensor, num_samples, datatype)`; None stands for a tensor still 0. */
  datatype SingleDataLoader = SingleDataLoader(batchTensor: Option<BackendTensor>, fullTensor: BackendTensor,
                                               numSamples: int, dtype: DataType)

  /** Only float32 and int32 arrays can be loaded. */
  function LoaderDType(name: string): (r: Result<DataType>)
    ensures r.Ok? <==> name == "float32" || name == "int32"
    ensures r == Ok(DtFloat) <==> name == "float32"
    ensures r == Ok(DtInt32) <==> name == "int32"
  {
    if name == "float32" then Ok(DtFloat)
    else if name == "int32" then Ok(DtInt32)
    else Fail("unsupported datatype")
  }

  /** The full tensor `create_single_data_loader` creates for an array; the loaders' sample count replaces its first dim. */
  function FullTensor(numSamples: int, a: NumpyArray): Result<BackendTensor> {
    match LoaderDType(a.dtype)
    case Fail(e) => Fail(e)
    case Ok(t) =>
      if |a.shape| == 2 then Ok(BackendTensor(2, [numSamples, a.shape[1]], t))
      else if |a.shape| == 4 then Ok(BackendTensor(4, [numSamples, a.shape[1], a.shape[2], a.shape[3]], t))
      else Fail("unsupported dims")
  }

  /** Rank 2 and 4 float32/int32 arrays are accepted, and the full tensor is [num_samples] + shape[1..] of the array's type. */
  lemma FullTensorSpec(numSamples: int, a: NumpyArray)
    ensures FullTensor(numSamples, a).Ok? <==>
      (a.dtype == "float32" || a.dtype == "int32") && (|a.shape| == 2 || |a.shape| == 4)
    ensures FullTensor(numSamples, a).Ok? ==>
      var f := FullTensor(numSamples, a).value;
      f.numDims == |a.shape| && f.dims == [numSamples] + a.shape[1..] && Ok(f.dtype) == LoaderDType(a.dtype)
  {
    if FullTensor(numSamples, a).Ok? {
      var f := FullTensor(numSamples, a).value;
      if |a.shape| == 2 {
        assert f.dims == [numSamples] + a.shape[1..];
      } else {
        assert f.dims == [numSamples] + a.shape[1..];
      }
    }
  }

  /** Python `int(a / b)`: the quotient rounded toward zero. */
  function TruncDiv(a: int, b: int): int
    requires b != 0
  {
    if a >= 0 && b > 0 then a / b
    else if a < 0 && b > 0 then -((-a) / b)
    else if a >= 0 then -(a / (-b))
    else (-a) / (-b)
  }

  /**
   * For a non-negative dividend and a positive divisor the truncated quotient is
   * the largest q with q*b <= a; flipping the sign of either operand flips it, so
   * it rounds toward zero in every quadrant.
   */
  lemma TruncDivSpec(a: int, b: int)
    requires b != 0
    ensures a >= 0 && b > 0 ==> TruncDiv(a, b) * b <= a < TruncDiv(a, b) * b + b
    ensures TruncDiv(-a, b) == -TruncDiv(a, b) && TruncDiv(a, -b) == -TruncDiv(a, b)
  {
    if a >= 0 && b > 0 {
      var q := a / b;
      var r := a % b;
      assert a == q * b + r && 0 <= r < b;
    }
    if a == 0 {
      ZeroQuotient(b);
    }
  }

  lemma ZeroQuotient(b: int)
    requires b != 0
    ensures 0 / b == 0 && 0 / (-b) == 0
  {
  }

  /** `iterations = num_samples / batch_size`, truncated by `int(...)`; a zero batch size raises. */
  function Iterations(numSamples: int, batchSize: int): Result<int> {
    if batchSize == 0 then Fail("division by zero") else Ok(TruncDiv(numSamples, batchSize))
  }

  /** `range(0, n)` runs max(n, 0) times. */
  function RangeCount(n: int): nat {
    if n > 0 then n else 0
  }

  /** `reset()` on every loader, in list order. */
  function Resets(numLoaders: nat): (r: seq<Call>)
    ensures |r| == numLoaders && forall i :: 0 <= i < numLoaders ==> r[i] == LoaderReset(i)
  {
    seq(numLoaders, (i: int) requires 0 <= i < numLoaders => LoaderReset(i))
  }

  /** `next_batch()` on every loader, in list order. */
  function NextBatches(numLoaders: nat): (r: seq<Call>)
    ensures |r| == numLoaders && forall i :: 0 <= i < numLoaders ==> r[i] == LoaderNextBatch(i)
  {
    seq(numLoaders, (i: int) requires 0 <= i < numLoaders => LoaderNextBatch(i))
  }

  /** The trace id both training loops use. */
  const TraceId := 111

  /** One iteration: fetch a batch from every loader, then forward, zero gradients, backward and update, traced after the first epoch. */
  function Step(numLoaders: nat, epoch: nat): seq<Call> {
    NextBatches(numLoaders)
    + (if epoch > 0 then [BeginTrace(TraceId)] else [])
    + [Forward, ZeroGradients, Backward, Update]
    + (if epoch > 0 then [EndTrace(TraceId)] else [])
  }

  /** One epoch: reset every loader and the metrics, then `iterations` steps. */
  function Epoch(numLoaders: nat, epoch: nat, iterations: int): seq<Call> {
    Resets(numLoaders) + [ResetMetrics] + Repeat(Step(numLoaders, epoch), RangeCount(iterations))
  }

  /** Epochs 0 .. epochs-1 in order. */
  function Epochs(numLoaders: nat, epochs: nat, iterations: int): seq<Call> {
    if epochs == 0 then [] else Epochs(numLoaders, epochs - 1, iterations) + Epoch(numLoaders, epochs - 1, iterations)
  }

  /** The calls the training loop issues before it returns or raises. */
  function TrainingTrace(numLoaders: nat, numSamples: int, batchSize: int, epochs: int): seq<Call> {
    if epochs <= 0 then []
    else match Iterations(numSamples, batchSize)
      case Fail(_) => Resets(numLoaders) + [ResetMetrics]
      case Ok(it) => Epochs(numLoaders, epochs, it)
  }

  /** The value `iterations` holds after the loop: None when the loop never ran, or the division that raised. */
  function TrainingOutcome(numSamples: int, batchSize: int, epochs: int): Result<Option<int>> {
    if epochs <= 0 then Ok(None)
    else match Iterations(numSamples, batchSize)
      case Fail(e) => Fail(e)
      case Ok(it) => Ok(Some(it))
  }

  /** `for dataloader in self.dataloaders: dataloader.reset()`. */
  method ResetLoaders(numLoaders: nat) returns (calls: seq<Call>)
    ensures calls == Resets(numLoaders)
  {
    calls := [];
    for i := 0 to numLoaders
      invariant calls == Resets(i)
    {
      assert Resets(i + 1) == Resets(i) + [LoaderReset(i)];
      calls := calls + [LoaderReset(i)];
    }
  }

  /** `for dataloader in self.dataloaders: dataloader.next_batch(self.ffmodel)`. */
  method FetchBatches(numLoaders: nat) returns (calls: seq<Call>)
    ensures calls == NextBatches(numLoaders)
  {
    calls := [];
    for i := 0 to numLoaders
      invariant calls == NextBatches(i)
    {
      assert NextBatches(i + 1) == NextBatches(i) + [LoaderNextBatch(i)];
      calls := calls + [LoaderNextBatch(i)];
    }
  }

  /** One pass of the epoch loop's body after `iterations` is known. */
  method RunEpoch(numLoaders: nat, epoch: nat, iterations: int) returns (calls: seq<Call>)
    ensures calls == Epoch(numLoaders, epoch, iterations)
  {
    calls := ResetLoaders(numLoaders);
    calls := calls + [ResetMetrics];
    var head := calls;
    var step := Step(numLoaders, epoch);
    for k := 0 to RangeCount(iterations)
      invariant calls == head + Repeat(step, k)
    {
      var fetch := FetchBatches(numLoaders);
      calls := calls + fetch;
      if epoch > 0 {
        calls := calls + [BeginTrace(TraceId)];
      }
      calls := calls + [Forward, ZeroGradients, Backward, Update];
      if epoch > 0 {
        calls := calls + [EndTrace(TraceId)];
      }
      assert calls == head + Repeat(step, k) + step;
    }
  }

  /** The nested epoch and iteration loops of `train`/`_train`. */
  method TrainingLoop(numLoaders: nat, numSamples: int, batchSize: int, epochs: int)
    returns (calls: seq<Call>, r: Result<Option<int>>)
    ensures calls == TrainingTrace(numLoaders, numSamples, batchSize, epochs)
    ensures r == TrainingOutcome(numSamples, batchSize, epochs)
  {
    calls := [];
    r := Ok(None);
    if epochs <= 0 {
      return;
    }
    if batchSize == 0 {
      calls := ResetLoaders(numLoaders);
      calls := calls + [ResetMetrics];
      return calls, Fail("division by zero");
    }
    var iterations := TruncDiv(numSamples, batchSize);
    var epoch := 0;
    while epoch < epochs
      invariant 0 <= epoch <= epochs
      invariant epoch > 0 ==> r == Ok(Some(iterations))
      invariant epoch == 0 ==> r == Ok(None)
      invariant calls == Epochs(numLoaders, epoch, iterations)
    {
      var e := RunEpoch(numLoaders, epoch, iterations);
      calls := calls + e;
      r := Ok(Some(iterations));
      epoch := epoch + 1;
    }
  }

  // Properties of the training trace.

  lemma MultisetSeq3(a: seq<Call>, b: seq<Call>, c: seq<Call>)
    ensures multiset(a + b + c) == multiset(a) + multiset(b) + multiset(c)
  {
  }

  /** How often a step issues each call: once for each phase and each loader, traced only after epoch 0. */
  lemma StepCounts(numLoaders: nat, epoch: nat, c: Call)
    ensures Count(Step(numLoaders, epoch), c) ==
      (if c in {Forward, ZeroGradients, Backward, Update} then 1
       else if c.LoaderNextBatch? && c.loader < numLoaders then 1
       else if (c == BeginTrace(TraceId) || c == EndTrace(TraceId)) && epoch > 0 then 1
       else 0)
  {
    var nb := NextBatches(numLoaders);
    var s := Step(numLoaders, epoch);
    var pre := if epoch > 0 then [BeginTrace(TraceId)] else [];
    var post := if epoch > 0 then [EndTrace(TraceId)] else [];
    var phases := [Forward, ZeroGradients, Backward, Update];
    assert s == nb + pre + phases + post;
    CountConcat(nb + pre + phases, post, c);
    CountConcat(nb + pre, phases, c);
    CountConcat(nb, pre, c);
    NextBatchesOnce(numLoaders, c);
    assert Count(phases, c) == if c in {Forward, ZeroGradients, Backward, Update} then 1 else 0;
  }

  /** Each loader is reset once in a reset sweep, and nothing else is issued. */
  lemma ResetsOnce(numLoaders: nat, c: Call)
    ensures Count(Resets(numLoaders), c) == if c.LoaderReset? && c.loader < numLoaders then 1 else 0
  {
    var sweep := Resets(numLoaders);
    if c.LoaderReset? && c.loader < numLoaders {
      var j := c.loader;
      assert sweep == sweep[..j] + [sweep[j]] + sweep[j + 1..];
      assert c !in sweep[..j];
      assert c !in sweep[j + 1..];
    } else {
      assert c !in sweep;
    }
  }

  /** Each loader is asked for its next batch once in a fetch sweep, and nothing else is issued. */
  lemma NextBatchesOnce(numLoaders: nat, c: Call)
    ensures Count(NextBatches(numLoaders), c) == if c.LoaderNextBatch? && c.loader < numLoaders then 1 else 0
  {
    var sweep := NextBatches(numLoaders);
    if c.LoaderNextBatch? && c.loader < numLoaders {
      var j := c.loader;
      assert sweep == sweep[..j] + [sweep[j]] + sweep[j + 1..];
      assert c !in sweep[..j];
      assert c !in sweep[j + 1..];
    } else {
      assert c !in sweep;
    }
  }

  /** The part after `head` in `head + part`. */
  lemma LastSlice(head: seq<Call>, part: seq<Call>)
    ensures (head + part)[|head|..|head| + |part|] == part
  {
  }

  /** A slice of `rest` is the same slice of `rest + last`. */
  lemma KeepSlice(rest: seq<Call>, last: seq<Call>, lo: nat, part: seq<Call>)
    requires lo + |part| <= |rest| && rest[lo..lo + |part|] == part
    ensures lo + |part| <= |rest + last| && (rest + last)[lo..lo + |part|] == part
  {
    assert (rest + last)[lo..lo + |part|] == rest[lo..lo + |part|];
  }

  /** How often an epoch issues each call. */
  lemma {:induction false} EpochCounts(numLoaders: nat, epoch: nat, iterations: int, c: Call)
    ensures Count(Epoch(numLoaders, epoch, iterations), c) ==
      (if c == ResetMetrics then 1
       else if c.LoaderReset? && c.loader < numLoaders then 1
       else RangeCount(iterations) * Count(Step(numLoaders, epoch), c))
  {
    var s := Step(numLoaders, epoch);
    CountRepeat(s, RangeCount(iterations), c);
    ResetsOnce(numLoaders, c);
    StepCounts(numLoaders, epoch, c);
    MultisetSeq3(Resets(numLoaders), [ResetMetrics], Repeat(s, RangeCount(iterations)));
  }

  /** A slice of the part after `head` in `head + body`. */
  lemma SliceAfter(head: seq<Call>, body: seq<Call>, lo: int, hi: int)
    requires 0 <= lo <= hi <= |body|
    ensures (head + body)[|head| + lo..|head| + hi] == body[lo..hi]
  {
  }

  /** Each epoch opens with a reset of every loader followed by reset_metrics, and its k-th step is the step for that epoch. */
  lemma {:induction false} EpochLayout(numLoaders: nat, epoch: nat, iterations: int, k: nat)
    requires k < RangeCount(iterations)
    ensures var e := Epoch(numLoaders, epoch, iterations); var s := Step(numLoaders, epoch);
      && e[..numLoaders + 1] == Resets(numLoaders) + [ResetMetrics]
      && numLoaders + 1 + (k + 1) * |s| <= |e|
      && e[numLoaders + 1 + k * |s|..numLoaders + 1 + (k + 1) * |s|] == s
  {
    var s := Step(numLoaders, epoch);
    var head := Resets(numLoaders) + [ResetMetrics];
    var body := Repeat(s, RangeCount(iterations));
    RepeatBlock(s, RangeCount(iterations), k);
    assert Epoch(numLoaders, epoch, iterations) == head + body;
    assert |head| == numLoaders + 1;
    SliceAfter(head, body, k * |s|, (k + 1) * |s|);
  }

  /** Epoch `e` of the run (0-based) is issued as a whole after the epochs before it. */
  lemma {:induction false} EpochsOrder(numLoaders: nat, epochs: nat, iterations: int, e: nat)
    requires e < epochs
    ensures var t := Epochs(numLoaders, epochs, iterations); var pre := Epochs(numLoaders, e, iterations);
      |pre| + |Epoch(numLoaders, e, iterations)| <= |t| &&
      t[|pre|..|pre| + |Epoch(numLoaders, e, iterations)|] == Epoch(numLoaders, e, iterations)
  {
    var t := Epochs(numLoaders, epochs, iterations);
    var pre := Epochs(numLoaders, e, iterations);
    var ep := Epoch(numLoaders, e, iterations);
    if e == epochs - 1 {
      assert t == pre + ep;
      LastSlice(pre, ep);
    } else {
      var rest := Epochs(numLoaders, epochs - 1, iterations);
      var last := Epoch(numLoaders, epochs - 1, iterations);
      EpochsOrder(numLoaders, epochs - 1, iterations, e);
      assert t == rest + last;
      KeepSlice(rest, last, |pre|, ep);
    }
  }

  /**
   * The Keras model base: the layer table, the model tensors (None for the initial 0),
   * the sample count and the data loaders with the rank of each. The batch size is
   * what `ffconfig.parse_args()` fixed.
   */
  class BaseModel {
    const batchSize: int
    var layers: map<int, Layer>
    var nbLayers: int
    var inputTensor: Option<BackendTensor>
    var labelTensor: Option<BackendTensor>
    var fullInputTensor: Option<BackendTensor>
    var fullLabelTensor: Option<BackendTensor>
    var numSamples: int
    var dataloaders: seq<SingleDataLoader>
    var dataloadersDim: seq<int>

    /** Each loader has its rank recorded at the same position, and that rank is its full tensor's. */
    predicate Valid()
      reads this
    {
      |dataloaders| == |dataloadersDim| &&
      forall i :: 0 <= i < |dataloaders| ==> dataloadersDim[i] == dataloaders[i].fullTensor.numDims
    }

    constructor (batchSize: int)
      ensures this.batchSize == batchSize && Valid()
      ensures layers == map[] && nbLayers == 0 && numSamples == 0 && dataloaders == [] && dataloadersDim == []
      ensures inputTensor == None && labelTensor == None && fullInputTensor == None && fullLabelTensor == None
    {
      this.batchSize := batchSize;
      layers := map[];
      nbLayers := 0;
      inputTensor := None;
      labelTensor := None;
      fullInputTensor := None;
      fullLabelTensor := None;
      numSamples := 0;
      dataloaders := [];
      dataloadersDim := [];
    }

    /** `get_layer(layer_id)`: the layer stored under that id, or the KeyError. */
    function GetLayer(id: int): (r: Result<Layer>)
      reads this
      ensures r.Ok? <==> id in layers
      ensures r.Ok? ==> r.value == layers[id]
    {
      if id in layers then Ok(layers[id]) else Fail("KeyError")
    }

    /** `__create_single_data_loader(batch_tensor, full_array)`. */
    method CreateSingleDataLoader(batchTensor: Option<BackendTensor>, a: NumpyArray) returns (r: Result<BackendTensor>)
      requires Valid()
      modifies this`dataloaders, this`dataloadersDim
      ensures Valid()
      ensures r == FullTensor(numSamples, a)
      ensures r.Ok? ==> (dataloaders == old(dataloaders) + [SingleDataLoader(batchTensor, r.value, numSamples, r.value.dtype)]
                         && dataloadersDim == old(dataloadersDim) + [|a.shape|])
      ensures r.Fail? ==> dataloaders == old(dataloaders) && dataloadersDim == old(dataloadersDim)
    {
      r := FullTensor(numSamples, a);
      if r.Ok? {
        FullTensorSpec(numSamples, a);
        dataloaders := dataloaders + [SingleDataLoader(batchTensor, r.value, numSamples, r.value.dtype)];
        dataloadersDim := dataloadersDim + [|a.shape|];
      }
    }

    /** `_create_data_loaders(x_train, y_train)`: the sample count from x_train, then an input loader and a label loader. */
    method CreateDataLoaders(x: NumpyArray, y: NumpyArray) returns (r: Result<()>)
      requires Valid()
      modifies this`numSamples, this`fullInputTensor, this`fullLabelTensor, this`dataloaders, this`dataloadersDim
      ensures Valid()
      ensures r.Ok? <==> |x.shape| > 0 && FullTensor(x.shape[0], x).Ok? && FullTensor(x.shape[0], y).Ok?
      ensures |x.shape| > 0 ==> numSamples == x.shape[0]
      ensures |x.shape| == 0 ==> numSamples == old(numSamples)
      ensures r.Fail? ==> fullLabelTensor == old(fullLabelTensor)
      ensures r.Fail? && !(|x.shape| > 0 && FullTensor(x.shape[0], x).Ok?) ==> fullInputTensor == old(fullInputTensor)
      ensures r.Ok? ==>
        && fullInputTensor == Some(FullTensor(x.shape[0], x).value)
        && fullLabelTensor == Some(FullTensor(x.shape[0], y).value)
        && dataloaders == old(dataloaders) +
             [SingleDataLoader(inputTensor, fullInputTensor.value, numSamples, fullInputTensor.value.dtype),
              SingleDataLoader(labelTensor, fullLabelTensor.value, numSamples, fullLabelTensor.value.dtype)]
        && dataloadersDim == old(dataloadersDim) + [|x.shape|, |y.shape|]
      ensures r.Fail? && |x.shape| > 0 && FullTensor(x.shape[0], x).Ok? ==>
        && fullInputTensor == Some(FullTensor(x.shape[0], x).value)
        && dataloaders == old(dataloaders) +
             [SingleDataLoader(inputTensor, fullInputTensor.value, numSamples, fullInputTensor.value.dtype)]
        && dataloadersDim == old(dataloadersDim) + [|x.shape|]
      ensures r.Fail? && !(|x.shape| > 0 && FullTensor(x.shape[0], x).Ok?) ==>
        dataloaders == old(dataloaders) && dataloadersDim == old(dataloadersDim)
    {
      if |x.shape| == 0 {
        return Fail("tuple index out of range");
      }
      numSamples := x.shape[0];
      var full := CreateSingleDataLoader(inputTensor, x);
      if full.Fail? {
        return Fail(full.reason);
      }
      fullInputTensor := Some(full.value);
      var labels := CreateSingleDataLoader(labelTensor, y);
      if labels.Fail? {
        return Fail(labels.reason);
      }
      fullLabelTensor := Some(labels.value);
      r := Ok(());
    }

    /**
     * `_train(epochs)`: the training trace, then the final report, which reads
     * `iterations` (unset when no epoch ran) and maps the input and label tensors.
     */
    method Train(epochs: int) returns (calls: seq<Call>, r: Result<()>)
      ensures calls == TrainingTrace(|dataloaders|, numSamples, batchSize, epochs)
      ensures r.Ok? <==> epochs > 0 && batchSize != 0 && inputTensor.Some? && labelTensor.Some?
    {
      var outcome;
      calls, outcome := TrainingLoop(|dataloaders|, numSamples, batchSize, epochs);
      if outcome.Fail? {
        return calls, Fail(outcome.reason);
      }
      if outcome.value.None? {
        return calls, Fail("local variable 'iterations' referenced before assignment");
      }
      if inputTensor.None? || labelTensor.None? {
        return calls, Fail("'int' object has no attribute 'inline_map'");
      }
      r := Ok(());
    }
  }
}
