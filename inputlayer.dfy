/**
 * The tensor descriptor of the Keras front end (python/flexflow/keras/models/input_layer.py):
 * dtype normalisation, how the rank and shape are fixed, when a backend tensor is
 * created, and the `Input` flavour of a tensor.
 */
module InputLayer {
  import opened Wrappers
  import opened CBinding

  /** The `dtype` argument: a numpy-style name, an enum member, or anything else (the defaults 0 and None included). */
  datatype DTypeArg = DTypeName(name: string) | DTypeMember(item: EnumItem) | DTypeOther

  /** The if-chain of `Tensor.__init__` that fixes `self.dtype`; DT_BOOLEAN is not among the accepted types. */
  function NormalizeDType(arg: DTypeArg): (r: Result<DataType>)
    ensures r.Ok? ==> r.value != DtBoolean
  {
    if arg == DTypeName("float32") || arg == DTypeMember(DType(DtFloat)) then Ok(DtFloat)
    else if arg == DTypeName("float64") || arg == DTypeMember(DType(DtDouble)) then Ok(DtDouble)
    else if arg == DTypeName("int32") || arg == DTypeMember(DType(DtInt32)) then Ok(DtInt32)
    else if arg == DTypeName("int64") || arg == DTypeMember(DType(DtInt64)) then Ok(DtInt64)
    else Fail("not supported")
  }

  /** The numpy name that selects each accepted data type. */
  function DTypeNameOf(t: DataType): string {
    match t
    case DtFloat => "float32"
    case DtDouble => "float64"
    case DtInt32 => "int32"
    case DtInt64 => "int64"
    case DtBoolean => "bool"
  }

  /** Exactly the four names and the four members are accepted, and a name and its member agree. */
  lemma NormalizeDTypeSpec(arg: DTypeArg)
    ensures NormalizeDType(arg).Ok? <==>
      exists t: DataType :: t != DtBoolean && (arg == DTypeName(DTypeNameOf(t)) || arg == DTypeMember(DType(t)))
    ensures forall t: DataType :: t != DtBoolean && (arg == DTypeName(DTypeNameOf(t)) || arg == DTypeMember(DType(t))) ==>
      NormalizeDType(arg) == Ok(t)
  {
    if NormalizeDType(arg).Ok? {
      var t := NormalizeDType(arg).value;
      assert arg == DTypeName(DTypeNameOf(t)) || arg == DTypeMember(DType(t));
    }
  }

  /**
   * Normalisation is idempotent: handing a tensor's own dtype to a new tensor (as a
   * layer does for its output tensor) always succeeds and keeps the type.
   */
  lemma NormalizeIdempotent(arg: DTypeArg)
    requires NormalizeDType(arg).Ok?
    ensures NormalizeDType(DTypeMember(DType(NormalizeDType(arg).value))) == NormalizeDType(arg)
  {
  }

  /** What the backend returns from `create_tensor_2d`/`create_tensor_4d`: a handle with `num_dims` and `dims`. */
  datatype BackendTensor = BackendTensor(numDims: int, dims: seq<int>, dtype: DataType)

  /**
   * The fields `Tensor.__init__` sets: whether it is an `Input`, the name
   * (None for the default 0), the rank, the batch shape, the data type and the backend handle.
   */
  datatype TensorMeta = TensorMeta(isInput: bool, name: Option<string>, numDims: int, batchShape: seq<int>,
                                   dtype: DataType, handle: Option<BackendTensor>)

  /** `__create_ff_tensor`: only rank 2 and rank 4 tensors can be created; `hasModel` is false for the default model 0. */
  function CreateFFTensor(hasModel: bool, batchShape: seq<int>, dtype: DataType): (r: Result<BackendTensor>)
    ensures r.Ok? <==> hasModel && (|batchShape| == 2 || |batchShape| == 4)
    ensures r.Ok? ==> r.value.numDims == |batchShape| && r.value.dims == batchShape && r.value.dtype == dtype
  {
    if |batchShape| == 2 || |batchShape| == 4 then
      if hasModel then Ok(BackendTensor(|batchShape|, batchShape, dtype)) else Fail("no model to create the tensor in")
    else Fail("un-supported dims")
  }

  /**
   * `Tensor(ffmodel, batch_shape, name, dtype, meta_only, ffhandle)`. A `batch_shape`
   * of None stands for an argument without a length (the defaults 0 and None), on
   * which `len` raises TypeError when no handle is given.
   */
  function NewTensor(hasModel: bool, batchShape: Option<seq<int>>, name: Option<string>, dtype: DTypeArg,
                     metaOnly: bool, ffhandle: Option<BackendTensor>): Result<TensorMeta>
  {
    match NormalizeDType(dtype)
    case Fail(e) => Fail(e)
    case Ok(t) =>
      if ffhandle.Some? then
        Ok(TensorMeta(false, Some(""), ffhandle.value.numDims, ffhandle.value.dims, t, ffhandle))
      else if batchShape.None? then
        Fail("object has no len()")
      else if metaOnly then
        Ok(TensorMeta(false, name, |batchShape.value|, batchShape.value, t, None))
      else
        match CreateFFTensor(hasModel, batchShape.value, t)
        case Fail(e) => Fail(e)
        case Ok(h) => Ok(TensorMeta(false, name, |batchShape.value|, batchShape.value, t, Some(h)))
  }

  /** When construction succeeds and what it records, with and without a handle. */
  lemma NewTensorSpec(hasModel: bool, batchShape: Option<seq<int>>, name: Option<string>, dtype: DTypeArg,
                      metaOnly: bool, ffhandle: Option<BackendTensor>)
    ensures var r := NewTensor(hasModel, batchShape, name, dtype, metaOnly, ffhandle);
      && (r.Ok? <==> NormalizeDType(dtype).Ok? &&
                     (ffhandle.Some? ||
                      (batchShape.Some? &&
                       (metaOnly || (hasModel && (|batchShape.value| == 2 || |batchShape.value| == 4))))))
      && (r.Ok? ==> !r.value.isInput && r.value.dtype == NormalizeDType(dtype).value)
      && (r.Ok? && ffhandle.None? ==>
            && batchShape.Some?
            && r.value.numDims == |batchShape.value| && r.value.batchShape == batchShape.value && r.value.name == name
            && (r.value.handle.Some? <==> !metaOnly)
            && (r.value.handle.Some? ==> r.value.handle.value.dims == batchShape.value))
      && (r.Ok? && ffhandle.Some? ==>
            && r.value.name == Some("") && r.value.numDims == ffhandle.value.numDims
            && r.value.batchShape == ffhandle.value.dims && r.value.handle == ffhandle)
  {
  }

  /**
   * `Input(shape, batch_shape, name, dtype)`: a meta-only tensor without a model,
   * flagged as an `Input`; `shape` is not used, and `batch_shape` defaults to None.
   */
  function Input(batchShape: Option<seq<int>>, name: string, dtype: DTypeArg): Result<TensorMeta> {
    match NewTensor(false, batchShape, Some(name), dtype, true, None)
    case Fail(e) => Fail(e)
    case Ok(m) => Ok(m.(isInput := true))
  }

  /**
   * An `Input` fails exactly on an unsupported dtype or a missing batch shape,
   * takes any rank, and never owns a backend tensor.
   */
  lemma InputSpec(batchShape: Option<seq<int>>, name: string, dtype: DTypeArg)
    ensures Input(batchShape, name, dtype).Ok? <==> NormalizeDType(dtype).Ok? && batchShape.Some?
    ensures Input(batchShape, name, dtype).Ok? ==>
      Input(batchShape, name, dtype).value ==
        TensorMeta(true, Some(name), |batchShape.value|, batchShape.value, NormalizeDType(dtype).value, None)
  {
  }

  /** A meta-only tensor built from an existing tensor's shape and dtype always succeeds and copies both. */
  lemma DerivedTensor(m: TensorMeta, shape: seq<int>)
    requires m.dtype != DtBoolean
    ensures NewTensor(false, Some(shape), None, DTypeMember(DType(m.dtype)), true, None) ==
      Ok(TensorMeta(false, None, |shape|, shape, m.dtype, None))
  {
  }
}
