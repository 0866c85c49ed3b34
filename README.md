# FlexFlow core, modelled in Dafny

This project models the core of FlexFlow, a deep-learning training framework built on the Legion
runtime. The model covers these parts of the system:

- `FFModel`'s construction in `model.cc`. This is the restriction partitions of the input image and
  raw-image regions over the worker grid, the asserts that these are disjoint and complete, and the
  `inputImage`/`inputRaw` tensor descriptors. The file's `DataLoader::get_samples` is modelled too.
- The C API of `python/flexflow_c.cc`:
  - opaque handle wrapping and unwrapping;
  - `NetConfig`'s `--dataset` scan and `flexflow_malloc_int`;
  - `calc_offset`;
  - the sample count of the dataset constructor;
  - the per-cell sample-index assignment that `ImgDataLoader` and `ImgDataLoader2D` make in
    `next_batch`, and their `reset`.
- The `top_level_task` drivers of `cnn.cc` and `nmt/nmt.cc`: command-line parsing, handle
  initialisation and the order of the training calls.
- The Python enum binding in `flexflow_cbinding.py`, including `enum_to_int` and the agreement of its
  codes with the C header.
- The Keras front end:
  - `Tensor`/`Input` in `input_layer.py`;
  - shape inference and in/out checks of `Conv2D`, `Dense`, `Flatten` and `Activation`;
  - `Conv2D.__call__`, which links layers and tensors in place;
  - the `Sequential` model: `add`, graph wiring, tensor and data-loader creation, and `train`;
  - the `BaseModel` state and `_train`.

Each source file has one module. `Model`, `CApi`, `Cnn`, `Nmt` and `CBinding` model the C++ and
binding files. `InputLayer`, `LayerGraph`, `Convolutional`, `CoreLayers`, `KerasSequential` and
`KerasBaseModel` model the Keras files. Four small shared modules support them:

- `Wrappers` holds `Result` and `Option`.
- `CString` models C `atoi`.
- `ArgScan` models the generic `argv` flag loop that `cnn.cc`, `nmt.cc` and `NetConfig` all use. It
  also gives an independent "last occurrence" characterisation of that loop.
- `Calls` is the call-trace alphabet and its counting lemmas.

The code below follows each file's own form:

- Loops become methods with invariants, proved against specification functions:
  - the flag scans;
  - the handle stores into arrays;
  - the training loops;
  - the sample-index loop;
  - `get_samples`.
- Objects whose fields change become classes:
  - `DataLoader` and `DataLoadMeta`;
  - `ImgDataLoader` and `ImgDataLoader2D`;
  - the Keras `Layer` and `Tensor`;
  - `Sequential` and `BaseModel`.
- Pure computations become functions with lemmas:
  - partitions and offsets;
  - shapes;
  - dtype normalisation;
  - enum codes.

A C `assert` aborts the process. It is modelled as a `requires` on the operation, or as a `Result`
failure where the operation is a pure function, such as the `FFModel` constructor. A Python
`assert` or exception is a `Result` failure.

## Model

| member | source | states |
|---|---|---|
| ArgScan.Heads | cnn.cc:383-425 | the positions the flag loop inspects are strictly increasing, lie in `argv` beyond the start, and exist exactly when `argv` has an entry beyond the start |
| ArgScan.ScanArgs | cnn.cc:383-425 | the imperative `for (i = 1; i < argc; i++)` loop with `++i` on a matched flag computes the last value map `Scan` |
| ArgScan.HeadsStep | cnn.cc:385-389 | after an inspected flag the loop skips its value (step 2), after any other word it steps by 1 |
| ArgScan.ValueNeverScanned | cnn.cc:387 | the word right after a matched flag is consumed as its value and is never itself inspected as a flag |
| ArgScan.ScanFromKeys | cnn.cc:383-425 | a flag gets a value exactly when it was already set or occurs at an inspected position; an unseen flag keeps its old value |
| ArgScan.ScanFromLastHead | cnn.cc:383-425 | the value a flag ends with is the word after its last inspected occurrence (later occurrences win) |
| ArgScan.ScanLastHead | cnn.cc:383-425 | over a whole command line, a flag ends with the word after its last inspected occurrence |
| ArgScan.OccursCons | cnn.cc:383-425 | helper lemma for ArgScan.ScanLastHead: the inspected positions from i are i followed by those after i's flag and value, and a flag occurs, or occurs last, in the whole exactly when it does at i or in the rest |
| ArgScan.ValuesPresent | cnn.cc:387 | definition (no recognised flag is the last word, so `argv[++i]` exists); the requires of ArgScan.ScanArgs |
| ArgScan.ScanFrom | cnn.cc:383-425 | definition; stated by ArgScan.ScanArgs, ArgScan.ScanFromKeys, ArgScan.ScanFromLastHead |
| ArgScan.Scan | cnn.cc:383-425 | definition; stated by ArgScan.ScanArgs, ArgScan.ScanLastHead |
| ArgScan.NoFlagsNothingSet | cnn.cc:383-425 | a command line with no flag words leaves every setting unchanged |
| ArgScan.OnlyFlagsSet | cnn.cc:383-425 | the scan only ever sets the recognised flags |
| CString.SkipSpace | cnn.cc:387 | `atoi` skips a suffix-preserving run of leading white space and stops at a non-space |
| CString.DigitRun | cnn.cc:387 | the digit run `atoi` reads is the maximal all-digit prefix |
| CString.Decimal | cnn.cc:387 | decimal rendering of a natural is a non-empty digit string |
| CString.DecimalValue | cnn.cc:387 | the digit string of `n` has value `n` |
| CString.AllDigitsRun | cnn.cc:387 | an all-digit string is read entirely |
| CString.AtoiDecimal | cnn.cc:387 | `atoi` inverts decimal rendering for positive and negative numbers |
| CString.Atoi | cnn.cc:387 | definition; stated by CString.AtoiDecimal |
| Cnn.ApplyField | cnn.cc:385-424 | each of the eight settings is set from its own flag (`-ph`, `-pw`, `-pn`, `-pfc`, `-pfn`, `-b`, `-num_loaders`, `-num_nodes`) through `atoi`, or keeps its value |
| Cnn.Apply | cnn.cc:385-424 | definition; stated by Cnn.ApplyField |
| Cnn.Parsed | cnn.cc:383-425 | definition; stated by Cnn.LastOccurrenceWins, Cnn.UnscannedFlagKeeps, Cnn.DefaultsWithoutFlags |
| Cnn.ParseInputArgs | cnn.cc:378-426 | the parser returns the settings obtained from the scanned last values |
| Cnn.DefaultsWithoutFlags | cnn.cc:34-54 | with no flag on the command line the defaults of `top_level_task` are kept |
| Cnn.LastOccurrenceWins | cnn.cc:383-425 | a setting named several times takes `atoi` of the value after its last inspected occurrence |
| Cnn.UnscannedFlagKeeps | cnn.cc:383-425 | a setting whose flag never occurs at an inspected position keeps its incoming value |
| Cnn.RunTraining | cnn.cc:127-136 | the calls are `init_layers` followed by `num_iterations` blocks of prefetch, forward, backward, update |
| Cnn.TrainingCalls | cnn.cc:127-136 | definition (the trace Cnn.RunTraining is proved against); stated by Cnn.TrainingOrder, Cnn.PhaseCounts |
| Cnn.TrainingOrder | cnn.cc:127-136 | the trace has length 1 + 4n, `init_layers` occurs once, and block k is prefetch, forward, backward, update |
| Cnn.PhaseCounts | cnn.cc:130-136 | forward and update each run exactly `num_iterations` times |
| Cnn.StoreHandles | cnn.cc:72-75 | `cnn_handlers[idx++]` stores the results in order and leaves the rest of the array unchanged |
| Cnn.TopLevelTask | cnn.cc:30-140 | `top_level_task` parses from the defaults, stores the handles, and issues init launch, wait, `add_layers`, training, fence, timing in that order; handler slots past the results are untouched |
| Nmt.ApplyField | nmt/nmt.cc:120-144 | each of the five settings is set from its own flag (`-b`, `-l`, `-s`, `-h`, `-e`) through `atoi`, or keeps its value |
| Nmt.Apply | nmt/nmt.cc:120-144 | definition; stated by Nmt.ApplyField |
| Nmt.Parsed | nmt/nmt.cc:118-145 | definition; stated by Nmt.LastOccurrenceWins, Nmt.UnscannedFlagKeeps, Nmt.DefaultsWithoutFlags |
| Nmt.ParseInputArgs | nmt/nmt.cc:114-146 | the parser returns the settings obtained from the scanned last values |
| Nmt.DefaultsWithoutFlags | nmt/nmt.cc:31-45 | with no flag on the command line the defaults are kept |
| Nmt.LastOccurrenceWins | nmt/nmt.cc:118-145 | a setting named several times takes `atoi` of the value after its last inspected occurrence |
| Nmt.UnscannedFlagKeeps | nmt/nmt.cc:118-145 | a setting whose flag never occurs keeps its incoming value |
| Nmt.HandleCalls | nmt/nmt.cc:49-57 | the handle loop issues two calls per worker |
| Nmt.HandleOrder | nmt/nmt.cc:51-57 | worker k's launch is immediately followed by the wait for its own result |
| Nmt.InitHandles | nmt/nmt.cc:49-57 | `dnn_handlers[idx++]` stores the results in order, issues the handle calls, and leaves the rest of the array unchanged |
| Nmt.RunTraining | nmt/nmt.cc:59-64 | the calls are `init` followed by `num_iterations` forward/backward pairs |
| Nmt.TrainingCalls | nmt/nmt.cc:59-64 | definition (the trace Nmt.RunTraining is proved against); stated by Nmt.TrainingOrder, Nmt.PhaseCounts |
| Nmt.TrainingOrder | nmt/nmt.cc:59-64 | the trace has length 1 + 2n, `init` occurs once, and pair k is forward then backward |
| Nmt.PhaseCounts | nmt/nmt.cc:61-64 | forward and backward each run `num_iterations` times and no update is issued |
| Nmt.TopLevelTask | nmt/nmt.cc:28-72 | parses from the defaults, builds the model, stores `num_workers` handles and leaves later slots untouched, trains 10 iterations, then fence and timing |
| CApi.Wrap | python/flexflow_c.cc:9-25 | wrapping keeps the pointer (unwrap recovers it) and its type |
| CApi.Unwrap | python/flexflow_c.cc:20-25 | definition; stated by CApi.Wrap, CApi.WrapRoundTrip |
| CApi.WrapRoundTrip | python/flexflow_c.cc:9-39 | `unwrap(wrap(p)) == p` and `wrap(unwrap(h)) == h`: wrapping is a bijection |
| CApi.NetConfig.constructor | python/flexflow_c.cc:1070-1081 | `dataset_path` is whatever the `--dataset` scan yields |
| CApi.DatasetPathChoice | python/flexflow_c.cc:1075-1080 | with no `--dataset` the path stays empty; otherwise it is the word after the last inspected `--dataset` |
| CApi.DatasetPath | python/flexflow_c.cc:1075-1080 | definition; stated by CApi.DatasetPathChoice |
| CApi.MallocInt | python/flexflow_c.cc:1041-1053 | a fresh buffer of the requested size, every entry 1 |
| CApi.OffsetDecodes | python/flexflow_c.cc:1230-1233 | `calc_offset` is inverted by the quotient/remainder decoding for in-range y and x |
| CApi.OffsetInjective | python/flexflow_c.cc:1230-1233 | distinct in-range (c, y, x) give distinct offsets |
| CApi.OffsetBounds | python/flexflow_c.cc:1230-1233 | in-range coordinates give an offset in [0, channels*yscale*xscale) |
| CApi.CalcOffset | python/flexflow_c.cc:1230-1233 | definition; stated by CApi.OffsetDecodes, CApi.OffsetInjective, CApi.OffsetBounds |
| CApi.DecodeOffset | python/flexflow_c.cc:1230-1233 | definition of the inverse of `calc_offset`; stated by CApi.OffsetDecodes |
| CApi.SampleCountSpec | python/flexflow_c.cc:1145-1155 | with a dataset the count is file size / 3073 and is defined exactly when 3073 divides the size; without one it is 2560 * workers * nodes |
| CApi.SampleCount | python/flexflow_c.cc:1145-1155 | definition; stated by CApi.SampleCountSpec |
| CApi.Volume | python/flexflow_c.cc:1318 | the number of points of the launch rectangle is non-negative |
| CApi.Divisible | python/flexflow_c.cc:1320 | definition (the per-point divisibility assert); the requires of CApi.ImgDataLoader.NextBatch and CApi.Dispatch |
| CApi.VolumePositive | python/flexflow_c.cc:1320 | in a non-empty rectangle every extent `hi - lo + 1` is positive, so the divisor is non-zero |
| CApi.CellRun | python/flexflow_c.cc:1322-1323 | each cell gets exactly `num_samples` indices |
| CApi.Assignment | python/flexflow_c.cc:1317-1325 | every cell gets `num_samples == batchSize/extent` and the run of consecutive indices that starts right after the previous cell's |
| CApi.AssignRuns | python/flexflow_c.cc:1317-1325 | the nested `idx++` loop builds that assignment and leaves `idx` at start + cells*num_samples |
| CApi.RunsDisjoint | python/flexflow_c.cc:1322-1323 | no sample index is given to two cells, or twice to one cell |
| CApi.RunsCover | python/flexflow_c.cc:1317-1325 | the indices handed out are exactly [start, start + cells*n) |
| CApi.WholeBatch | python/flexflow_c.cc:1320-1321 | under the divisibility assert the cells' shares add up to the batch size |
| CApi.Dispatch | python/flexflow_c.cc:1317-1325 | one sample record per point of the launch rectangle |
| CApi.DispatchGrid | python/flexflow_c.cc:1314-1325 | the point-iterator loop over the launch rectangle produces the dispatch |
| CApi.DispatchPerCell | python/flexflow_c.cc:1320-1321 | every record holds `batchSize / (hi[d] - lo[d] + 1)` samples |
| CApi.DispatchLoadsBatch | python/flexflow_c.cc:1317-1325 | when the grid is split only along the sample dim, one `next_batch` hands out exactly the samples [next_index, next_index + batchSize), each once |
| CApi.ImgDataLoader.FromTensors | python/flexflow_c.cc:1087-1137 | the loader takes the given sample count and, after `reset(); next_batch()`, stands at index batchSize |
| CApi.ImgDataLoader.FromDataset | python/flexflow_c.cc:1139-1188 | the sample count is the dataset's (file size / 3073, or the random-data default) and the loader stands at batchSize |
| CApi.ImgDataLoader.Reset | python/flexflow_c.cc:1373-1376 | `next_index` returns to 0; nothing else changes |
| CApi.ImgDataLoader.NextBatch | python/flexflow_c.cc:1308-1371 | input and label records are the dispatch from the old `next_index`, which advances by batchSize without wrapping |
| CApi.ImgDataLoader2D.constructor | python/flexflow_c.cc:1390-1439 | the given sample count, standing at batchSize after the initial reset and batch |
| CApi.ImgDataLoader2D.Reset | python/flexflow_c.cc:1546-1549 | `next_index` returns to 0 |
| CApi.ImgDataLoader2D.NextBatch | python/flexflow_c.cc:1481-1544 | both 2-D dispatches start at the old `next_index`, which advances by batchSize |
| CApi.InputMatchesLabel | python/flexflow_c.cc:1317-1354 | with matching grids the input and label loops assign every cell the same sample indices |
| CApi.Batches | python/flexflow_c.cc:1308-1376 | after a reset, batch j sends every input point and every label point the runs `Dispatch` gives from sample j*B, and k batches leave the loader at k*B |
| CBinding.Find | python/flexflow/core/flexflow_cbinding.py:56-62 | the lookup succeeds exactly for a member of the listed items and returns its value; anything else fails the assert |
| CBinding.MembersOfClass | python/flexflow/core/flexflow_cbinding.py:34-54 | iterating an enum class yields exactly its own members |
| CBinding.EnumToIntSpec | python/flexflow/core/flexflow_cbinding.py:56-62 | `enum_to_int(E, x)` succeeds exactly when x is a member of E, and gives its value |
| CBinding.EnumToInt | python/flexflow/core/flexflow_cbinding.py:56-62 | definition; stated by CBinding.EnumToIntSpec |
| CBinding.Value | python/flexflow/core/flexflow_cbinding.py:34-54 | definition; stated by CBinding.CodeRanges, CBinding.CodeRoundTrip, CBinding.CodesInjective |
| CBinding.CodesMatchC | python/flexflow_c_dev.h:10-34 | every Python code equals the C header's code for the same name |
| CBinding.CValue | python/flexflow_c_dev.h:10-34 | definition; stated by CBinding.CodesMatchC |
| CBinding.CodeRanges | python/flexflow/core/flexflow_cbinding.py:34-54 | each class's codes are consecutive from its base (10, 20, 30, 40) in declaration order |
| CBinding.CodeRoundTrip | python/flexflow/core/flexflow_cbinding.py:34-54 | a code determines its member: decoding a member's code gives the member back |
| CBinding.CodesInjective | python/flexflow/core/flexflow_cbinding.py:34-54 | no two members, even of different classes, share a code |
| InputLayer.NormalizeDType | python/flexflow/keras/models/input_layer.py:9-18 | a normalised dtype is never boolean |
| InputLayer.NormalizeDTypeSpec | python/flexflow/keras/models/input_layer.py:9-18 | normalisation succeeds exactly for the names or members float32/float64/int32/int64, and maps each to its type |
| InputLayer.NormalizeIdempotent | python/flexflow/keras/models/input_layer.py:9-18 | normalising the member of a normalised dtype gives it back |
| InputLayer.CreateFFTensor | python/flexflow/keras/models/input_layer.py:32-38 | a backend tensor is created exactly for rank 2 or 4 (with a model), with the given dims and dtype |
| InputLayer.NewTensorSpec | python/flexflow/keras/models/input_layer.py:4-38 | construction fails exactly on a bad dtype or a missing backend tensor; without a handle shape and name are kept and a handle exists iff not meta-only; with one, the name is "" and shape comes from the handle |
| InputLayer.NewTensor | python/flexflow/keras/models/input_layer.py:4-30 | definition; stated by InputLayer.NewTensorSpec |
| InputLayer.InputSpec | python/flexflow/keras/models/input_layer.py:41-45 | `Input` is a meta-only input tensor of the given batch shape and name; it fails exactly on an unsupported dtype or a batch shape left at its default None |
| InputLayer.Input | python/flexflow/keras/models/input_layer.py:41-45 | definition; stated by InputLayer.InputSpec |
| InputLayer.DerivedTensor | python/flexflow/keras/layers/convolutional.py:71 | the output tensor of a layer call always constructs, with the input's dtype and the given shape |
| LayerGraph.ActivationMode | python/flexflow/keras/layers/convolutional.py:19-24 | only `None` and "relu" are accepted, and "relu" is the only one mapped to RELU |
| LayerGraph.Layer.constructor | python/flexflow/keras/layers/convolutional.py:9-12 | a new layer has its name and parameters, id -1 and no tensors or neighbours (assumed base_layer.py defaults) |
| LayerGraph.KTensor.constructor | python/flexflow/keras/models/input_layer.py:4-7 | a new tensor has its metadata and empty layer lists; `from_layer`/`to_layer`, which input_layer.py does not define, start unset |
| LayerGraph.OutputShapeOf | python/flexflow/keras/models/sequential.py:71-87 | definition (the `output_shape` a later layer reads, None when unset); stated by KerasSequential.Sequential.Add |
| LayerGraph.WindowArgsReadable | python/flexflow/keras/models/sequential.py:36-38 | definition (the `kernel_size`, `stride` and `padding` entries 0 and 1 exist); stated by KerasSequential.AllSound, KerasSequential.BuildSucceeds (through `Sound`) |
| Convolutional.FloorDivSpec | python/flexflow/keras/layers/convolutional.py:41-42 | `math.floor(a / s)` is the floor quotient for either sign of s |
| Convolutional.OutSizeFits | python/flexflow/keras/layers/convolutional.py:41-42 | the output size is the number of kernel placements that fit in the padded input |
| Convolutional.OutSize | python/flexflow/keras/layers/convolutional.py:41-42 | definition; stated by Convolutional.OutSizeFits |
| Convolutional.Conv2DShape | python/flexflow/keras/layers/convolutional.py:35-46 | a successful shape inference keeps the layer a Conv2D |
| Convolutional.AfterShape | python/flexflow/keras/layers/convolutional.py:35-46 | the layer state after inference, failed or not, stays a Conv2D |
| Convolutional.Conv2DShapeSpec | python/flexflow/keras/layers/convolutional.py:35-46 | inference fails exactly on a zero w, h, d (or malformed parameters), and sets input (b,d,w,h), in_channels d and output (b, filters, out_w, out_h), keeping all other parameters |
| Convolutional.SamePadding | python/flexflow/keras/layers/convolutional.py:41-44 | a 3x3 kernel, stride 1, padding 1 keeps a 28x28 image 28x28 |
| Convolutional.NewConv2D | python/flexflow/keras/layers/convolutional.py:8-33 | the constructor yields a Conv2D |
| Convolutional.NewConv2DSpec | python/flexflow/keras/layers/convolutional.py:8-33 | needs 2-element kernel and strides and a known activation; keeps filters, kernel, strides, padding, bias; infers shapes from a 4- or 3-element input shape, else leaves them zero |
| Convolutional.ShapeThenMetaData | python/flexflow/keras/layers/convolutional.py:48-52 | after a successful inference `verify_meta_data` passes exactly when the filter count is non-zero |
| Convolutional.VerifyMetaData | python/flexflow/keras/layers/convolutional.py:48-52 | definition; stated by Convolutional.ShapeThenMetaData |
| Convolutional.VerifyInoutSpec | python/flexflow/keras/layers/convolutional.py:88-96 | the check passes exactly when both tensors are rank 4 and agree with the layer's shapes on dims 1..3 |
| Convolutional.VerifyInout | python/flexflow/keras/layers/convolutional.py:88-96 | definition; stated by Convolutional.VerifyInoutSpec, Convolutional.InferredShapesVerify |
| Convolutional.InferredShapesVerify | python/flexflow/keras/layers/convolutional.py:64-73 | shapes inferred from an input tensor always pass the in/out check against it and the output made from them |
| Convolutional.CalculateInoutShape | python/flexflow/keras/layers/convolutional.py:35-46 | the in-place method sets the inferred parameters, succeeds as the function does, and touches nothing else |
| Convolutional.Call | python/flexflow/keras/layers/convolutional.py:64-86 | rejects non-rank-4 input; otherwise re-infers a first layer's shapes, returns a fresh output tensor of the output shape and input dtype, appends both tensors, and links input layer or predecessor both ways; the new tensor has no layers, and the layer's id, the input's layer lists and the producer's other attributes are unchanged |
| Convolutional.CallShape | python/flexflow/keras/layers/convolutional.py:67-69 | definition; stated by Convolutional.Call |
| Convolutional.OutputMeta | python/flexflow/keras/layers/convolutional.py:65-73 | the shape steps of `__call__`: the output metadata and the updated layer, which pass the in/out check |
| Convolutional.Link | python/flexflow/keras/layers/convolutional.py:74-84 | records the tensors and sets `from_layer`; an `Input` gets `to_layer`, otherwise the producer and this layer become each other's neighbours; fails only for a non-input tensor with no producer, and then has still appended both tensors and set the output's producer; the layer's id, the tensors' layer lists and links it does not set, and the producer's other attributes are unchanged |
| Convolutional.LinkAsWritten | python/flexflow/keras/layers/convolutional.py:74-77 | as written: appends both tensors, then fails with AttributeError on `set_from_layer`; no link is made |
| Convolutional.TensorAttr | python/flexflow/keras/models/input_layer.py:3-38 | an attribute lookup fails exactly for names outside the attributes `Tensor` defines, with Python's AttributeError message |
| Convolutional.LinkApiMissing | python/flexflow/keras/models/input_layer.py:3-38 | none of `set_from_layer`, `set_to_layer`, `from_layer`, `to_layer` exists on a `Tensor` |
| CoreLayers.NewDense | python/flexflow/keras/layers/core.py:8-24 | fails only on the activation; keeps units; takes in_channels and input shape from a 2- or 1-element input shape |
| CoreLayers.DenseShapeSpec | python/flexflow/keras/layers/core.py:45-56 | passes exactly for a rank 2 input with non-zero width matching any declared in_channels, and sets input (b, w), output (b, units), in_channels w |
| CoreLayers.DenseShape | python/flexflow/keras/layers/core.py:45-56 | definition; stated by CoreLayers.DenseShapeSpec |
| CoreLayers.DenseShapeVerifies | python/flexflow/keras/layers/core.py:58-62 | inferred Dense shapes pass the in/out check with an output of width units |
| CoreLayers.DenseVerify | python/flexflow/keras/layers/core.py:58-62 | definition; stated by CoreLayers.DenseShapeVerifies |
| CoreLayers.DenseShapeThenMetaData | python/flexflow/keras/layers/core.py:26-30 | after inference `verify_meta_data` passes exactly when units is non-zero |
| CoreLayers.DenseVerifyMetaData | python/flexflow/keras/layers/core.py:26-30 | definition; stated by CoreLayers.DenseShapeThenMetaData |
| CoreLayers.FlattenCalculate | python/flexflow/keras/layers/core.py:79-87 | the product loop over dims 1.. computes the flatten shape |
| CoreLayers.FlattenKeepsElements | python/flexflow/keras/layers/core.py:79-87 | flatten keeps the batch dim and the element count: b * flat_size == product of the input shape |
| CoreLayers.FlattenShape | python/flexflow/keras/layers/core.py:79-87 | definition; stated by CoreLayers.FlattenCalculate, CoreLayers.FlattenKeepsElements |
| CoreLayers.FlattenShapeVerifies | python/flexflow/keras/layers/core.py:89-94 | the inferred flatten shape passes the in/out check |
| CoreLayers.FlattenVerify | python/flexflow/keras/layers/core.py:89-94 | definition; stated by CoreLayers.FlattenShapeVerifies |
| CoreLayers.NewActivation | python/flexflow/keras/layers/core.py:97-102 | only "softmax" constructs, as type "Softmax" |
| CoreLayers.ActivationShape | python/flexflow/keras/layers/core.py:114-117 | inference passes exactly for rank 2 input and makes the output shape the input shape |
| CoreLayers.ActivationVerifyMetaData | python/flexflow/keras/layers/core.py:104-105 | the check passes exactly for type "Softmax" |
| CoreLayers.ActivationWellFormed | python/flexflow/keras/layers/core.py:97-117 | an activation that constructs passes its metadata check, before and after inference |
| KerasSequential.Wire | python/flexflow/keras/models/sequential.py:27-45 | call k is layer k's backend call, fed by the model input for k = 0 and by layer k-1's output after |
| KerasSequential.WireChain | python/flexflow/keras/models/sequential.py:30-33 | the first call reads the input tensor and each later one the previous call's output |
| KerasSequential.WirePrefix | python/flexflow/keras/models/sequential.py:27-50 | the wiring grows by one call per layer |
| KerasSequential.SoundPrefix | python/flexflow/keras/models/sequential.py:27-50 | the number of layers processed before an assert fails lies between the start and the layer count |
| KerasSequential.SoundPrefixSpec | python/flexflow/keras/models/sequential.py:29-44 | every layer before that point passes the id assert, the window-argument reads and the softmax assert, and the one at it fails one of them |
| KerasSequential.Sound | python/flexflow/keras/models/sequential.py:29-44 | definition; stated by KerasSequential.SoundPrefixSpec, KerasSequential.AllSound |
| KerasSequential.AllSound | python/flexflow/keras/models/sequential.py:29-44 | with ids 0..n-1 every layer passes exactly when every Conv2D and MaxPooling2D has two-entry kernel size, stride and padding and no Activation precedes the last layer |
| KerasSequential.BuildSucceeds | python/flexflow/keras/models/sequential.py:24-51 | with ids 0..n-1, graph building completes exactly when every window argument has two entries and only the last layer may be an Activation |
| KerasSequential.ShortPaddingStops | python/flexflow/keras/models/sequential.py:36 | a Conv2D whose padding has fewer than two entries stops the build at that layer when every earlier layer passes |
| KerasSequential.BuildLayers | python/flexflow/keras/models/sequential.py:24-51 | the loop issues the wiring up to the first failing layer |
| KerasSequential.LayerIds | python/flexflow/keras/models/sequential.py:27-29 | the ids of layers 0..n-1 read from the registry in key order |
| KerasSequential.LayerParamsOf | python/flexflow/keras/models/sequential.py:35-45 | the attributes of layers 0..n-1 in key order |
| KerasSequential.BatchMatchesFull | python/flexflow/keras/models/sequential.py:130-161 | a float32 input's batch tensor and full tensor agree on every dim but the first, the batch size versus the sample count |
| KerasSequential.InputDims | python/flexflow/keras/models/sequential.py:130-140 | definition; stated by KerasSequential.BatchMatchesFull, KerasSequential.Sequential.CreateInputAndLabelTensor |
| KerasSequential.ChainedConv2D | python/flexflow/keras/models/sequential.py:71-74 | definition; stated by KerasSequential.Sequential.Add |
| KerasSequential.HasDims | python/flexflow/keras/models/sequential.py:71-87 | definition; stated by KerasSequential.ReadPrevShape |
| KerasSequential.ReadPrevShape | python/flexflow/keras/models/sequential.py:76-87 | reading the predecessor's `output_shape` up to index n-1 succeeds exactly when it exists and has at least n dims |
| KerasSequential.Sequential.constructor | python/flexflow/keras/models/sequential.py:6-22 | an empty model: no layers, no tensors, no loaders |
| KerasSequential.Sequential.Add | python/flexflow/keras/models/sequential.py:67-87 | stores the layer under the next id and gives it that id; a non-first Conv2D infers its shapes from its predecessor's output (failing when it has none or it is too short); MaxPooling2D and Flatten may not be first; a later MaxPooling2D, Flatten or Dense fails exactly when its predecessor's output shape is missing or has fewer than 4, 0 or 2 dims; ids stay matched unless the same layer object is added twice |
| KerasSequential.Sequential.CreateLayerAndInitInout | python/flexflow/keras/models/sequential.py:24-51 | issues the wiring up to the first layer that fails the id assert, a window-argument read or the softmax assert; succeeds exactly when every layer passes, then the model output is the last layer's |
| KerasSequential.Sequential.CreateInputAndLabelTensor | python/flexflow/keras/models/sequential.py:130-140 | a float input tensor of dims [batch] + shape[1..] for rank 2 or 4 (else unchanged), and an int32 label tensor [batch, 1] |
| KerasSequential.Sequential.CreateSingleDataLoader | python/flexflow/keras/models/sequential.py:142-169 | returns the full tensor for the array and appends a loader and the rank; on an unsupported dtype or rank nothing is appended |
| KerasSequential.Sequential.CreateDataLoaders | python/flexflow/keras/models/sequential.py:172-178 | takes the sample count from x and appends the input and label loaders in order; fails exactly when x has no dims or either array is unsupported; on failure the fields not yet assigned keep their values, and a failed label loader leaves the input loader appended |
| KerasSequential.Sequential.Train | python/flexflow/keras/models/sequential.py:180-211 | issues the training trace and succeeds exactly when an epoch ran, the batch size is non-zero and the label tensor exists |
| KerasBaseModel.LoaderDType | python/flexflow/keras/models/base_model.py:35-40 | only float32 and int32 arrays load, to DT_FLOAT and DT_INT32 |
| KerasBaseModel.FullTensorSpec | python/flexflow/keras/models/base_model.py:30-49 | the full tensor exists exactly for rank 2/4 float32/int32 arrays and is [num_samples] + shape[1..] of that type |
| KerasBaseModel.FullTensor | python/flexflow/keras/models/base_model.py:31-49 | definition; stated by KerasBaseModel.FullTensorSpec |
| KerasBaseModel.TruncDivSpec | python/flexflow/keras/models/base_model.py:73-75 | `int(n / b)` rounds toward zero: the floor quotient for positive operands, odd in each operand |
| KerasBaseModel.TruncDiv | python/flexflow/keras/models/base_model.py:73-75 | definition; stated by KerasBaseModel.TruncDivSpec |
| KerasBaseModel.Iterations | python/flexflow/keras/models/base_model.py:73-75 | definition (`int(num_samples / batch_size)`, ZeroDivisionError for a zero batch size); the quotient is stated by KerasBaseModel.TruncDivSpec, the zero-batch failure by KerasBaseModel.BaseModel.Train |
| KerasBaseModel.TrainingOutcome | python/flexflow/keras/models/base_model.py:69-75 | definition (no value when no epoch runs, the division's error, else the iteration count); KerasBaseModel.TrainingLoop returns it, and KerasBaseModel.BaseModel.Train states when it is a value (an epoch ran and the batch size is non-zero) |
| KerasBaseModel.Resets | python/flexflow/keras/models/base_model.py:70-71 | one reset per loader, in loader order |
| KerasBaseModel.NextBatches | python/flexflow/keras/models/base_model.py:76-77 | one `next_batch` per loader, in loader order |
| KerasBaseModel.ResetLoaders | python/flexflow/keras/models/base_model.py:70-71 | the loop issues exactly those resets |
| KerasBaseModel.FetchBatches | python/flexflow/keras/models/base_model.py:76-77 | the loop issues exactly those `next_batch` calls |
| KerasBaseModel.RunEpoch | python/flexflow/keras/models/base_model.py:70-88 | one epoch issues the resets, `reset_metrics`, then `int(iterations)` steps |
| KerasBaseModel.TrainingLoop | python/flexflow/keras/models/base_model.py:69-88 | the nested loops issue the epochs' calls; a zero batch size raises after the first resets; `iterations` stays unset when no epoch runs |
| KerasBaseModel.StepCounts | python/flexflow/keras/models/base_model.py:76-88 | each step runs forward, zero_gradients, backward and update once, every loader's `next_batch` once, and traces only after epoch 0 |
| KerasBaseModel.ResetsOnce | python/flexflow/keras/models/base_model.py:70-71 | every loader is reset exactly once per epoch |
| KerasBaseModel.NextBatchesOnce | python/flexflow/keras/models/base_model.py:76-77 | every loader fetches exactly once per step |
| KerasBaseModel.EpochCounts | python/flexflow/keras/models/base_model.py:69-88 | per epoch: one `reset_metrics`, one reset per loader, and every step call `int(iterations)` times |
| KerasBaseModel.EpochLayout | python/flexflow/keras/models/base_model.py:69-88 | an epoch starts with the resets and `reset_metrics`, and its k-th block is exactly one step |
| KerasBaseModel.EpochsOrder | python/flexflow/keras/models/base_model.py:69-88 | epoch e's calls appear, contiguous and whole, after those of epochs 0..e-1 |
| KerasBaseModel.Step | python/flexflow/keras/models/base_model.py:76-88 | definition; stated by KerasBaseModel.StepCounts |
| KerasBaseModel.Epoch | python/flexflow/keras/models/base_model.py:70-88 | definition; stated by KerasBaseModel.EpochCounts, KerasBaseModel.EpochLayout |
| KerasBaseModel.Epochs | python/flexflow/keras/models/base_model.py:69-88 | definition (epochs 0..e-1 in order); stated by KerasBaseModel.EpochsOrder |
| KerasBaseModel.TrainingTrace | python/flexflow/keras/models/base_model.py:69-88 | definition (no calls without epochs, one epoch's resets when the division raises, else `Epochs`); `Epochs` is stated by KerasBaseModel.EpochsOrder |
| KerasBaseModel.BaseModel.constructor | python/flexflow/keras/models/base_model.py:4-20 | an empty model: no layers, tensors or loaders |
| KerasBaseModel.BaseModel.GetLayer | python/flexflow/keras/models/base_model.py:22-23 | returns the stored layer exactly when the id is a key, else the KeyError |
| KerasBaseModel.BaseModel.CreateSingleDataLoader | python/flexflow/keras/models/base_model.py:30-57 | returns the full tensor, appends the loader and the rank on success, changes nothing on failure |
| KerasBaseModel.BaseModel.CreateDataLoaders | python/flexflow/keras/models/base_model.py:59-65 | the sample count from x, then the input and label loaders in that order; on failure the fields not yet assigned keep their values, and a failed label loader leaves the input loader appended |
| KerasBaseModel.BaseModel.Train | python/flexflow/keras/models/base_model.py:67-104 | issues the training trace; succeeds exactly when an epoch ran, the batch size is non-zero and both input and label tensors exist |
| Model.Block | model.cc:56-62 | a restriction cell's block has the parent's rank |
| Model.ImagePartition | model.cc:51-62 | the image restriction is well-shaped (3-D transform and extent over the 3-D grid) |
| Model.RawPartition | model.cc:82-92 | the raw restriction is well-shaped (2x3 transform) |
| Model.GridCells | model.cc:41-43 | the worker grid's points are exactly (0, 0, p) for 0 <= p < nodes*workers |
| Model.ImageBlock | model.cc:51-62 | cell p's image block is all of w and h and samples [3e*p, 3e*p + 3e) clipped to [0, 3B) |
| Model.RawBlock | model.cc:87-92 | cell p's raw block is all HWC rows and columns [e*p, e*p + e) clipped to [0, B) |
| Model.InImageBlock | model.cc:51-62 | a point is in cell p's image block exactly when it is in the image and in p's sample range |
| Model.InRawBlock | model.cc:87-92 | a point is in cell p's raw block exactly when it is in the raw rect and in p's column range |
| Model.ImageDisjoint | model.cc:63 | the image partition is disjoint for every extent |
| Model.RawDisjoint | model.cc:93 | the raw partition is disjoint for every extent |
| Model.ImageComplete | model.cc:64 | the image partition is complete when the cells' ranges reach the batch |
| Model.RawComplete | model.cc:94 | the raw partition is complete under the same condition |
| Model.EmptyGridComplete | model.cc:41-43 | with no workers the partition is complete only over an empty parent |
| Model.ExtentNTimesWorkers | model.cc:54-55 | under the divisibility assert extentN = 3*(B/P), so the cells' extents sum to 3B |
| Model.ExtentN | model.cc:55 | definition; stated by Model.ExtentNTimesWorkers, Model.AsWrittenTailCellsEmpty |
| Model.ImageRect | model.cc:44-45 | definition; stated by Model.InImageBlock, Model.ImageComplete |
| Model.RawRect | model.cc:83 | definition; stated by Model.InRawBlock, Model.RawComplete |
| Model.BuildSucceeds | model.cc:54-64 | construction passes exactly when P divides B and both partitions are disjoint and complete |
| Model.InputTensors | model.cc:35-102 | the data loader exists iff a dataset path is set; `inputImage` is 4-D [w, h, 3, B] / [w, h, 3, extentN] over its partition, with no grad region; `inputRaw` is 2-D [h*w*3, B] / [h*w*3, extentN]; both partitions are disjoint and complete |
| Model.BuildFFModel | model.cc:35-102 | definition; stated by Model.BuildSucceeds, Model.InputTensors |
| Model.AsWrittenTailCellsEmpty | model.cc:55-62 | as written, every worker p with 3p >= P gets an empty image block and an empty raw block |
| Model.AsWrittenFourWorkers | model.cc:55-62 | with 4 workers and batch 256, workers 2 and 3 get an empty image block and an empty raw block |
| Model.IntendedBlocks | model.cc:55-62 | with extentN = B/P every worker gets a full, unclipped block of B/P samples |
| Model.IntendedPartitions | model.cc:55-94 | with extentN = B/P both partitions are still disjoint and complete |
| Model.DataLoadMeta.constructor | include/model.h:535-538 | an empty sample record buffer of the given capacity |
| Model.AsWrittenFill | model.cc:152-156 | as written, `get_samples` writes `count` samples |
| Model.IntendedFill | model.cc:152-156 | the intended fill writes `count` samples |
| Model.IntendedNext | model.cc:152-156 | the advanced cursor stays within the sample list |
| Model.DataLoader.GetSamples | model.cc:149-158 | as written: sets `numSamples`, writes the as-written fill, leaves the rest of the buffer, keeps the sample list, and moves the cursor only from the end back to the start; returns true |
| Model.DataLoader.GetSamplesIntended | model.cc:149-158 | the corrected loop advances the cursor after each sample and writes the intended fill |
| Model.NextStep | model.cc:152-156 | after i steps the cursor is (start + i) mod n, and each step moves it by one |
| Model.AsWrittenRepeats | model.cc:152-156 | as written, every slot of the batch holds the same sample |
| Model.AsWrittenMissesSamples | model.cc:152-156 | with samples [a, b] and count 2 the as-written fill is [a, a] and the intended one is [a, b] |
| Model.IntendedConsecutive | model.cc:149-158 | two intended calls in a row give the same samples as one call of the combined count |
| Model.IntendedCoversAll | model.cc:149-158 | a batch at least as long as the sample list contains every sample |

## Left out

- The Legion runtime itself is not modelled: regions, index launches, futures, mappers, task
  registration and the GPU tasks (`load_entire_dataset*`, the copy tasks). Launch rectangles and
  partitions are modelled as integer boxes and a restriction.
- Floating point, the clock and the timing prints are not modelled. The learning rate, `ts_start`,
  `run_time` and the throughput print are omitted. Python's true division `n / b` in `train` is
  modelled by its truncation `int(n / b)` on exact integers (`TruncDiv`), so float rounding of
  very large counts is not captured.
- Integers are unbounded. The model does not capture 32-bit `int` overflow in `calc_offset`,
  `3 * batchSize`, `idx++` or `num_samples`.
- CString.Atoi: a value outside the `int` range is undefined behaviour in C. The model returns the
  exact integer.
- I/O is replaced by parameters. The dataset file's size (`get_file_size`) is a parameter. The
  `DataLoader` directory-scanning constructor and `shuffle_samples` are not modelled. The sample
  list is a parameter of the `DataLoader` class.
- `malloc` returning `NULL` is not modelled, and neither is the `SampleIdxs` capacity of its
  `idxs` array.
- Model.DataLoader.GetSamples requires `numSamples` to fit in `meta.samples`. That array is the
  fixed `samples[MAX_SAMPLES_PER_LOAD]` of `DataLoadMeta` (include/model.h:535-538). The source
  never checks the count against it, and a larger count overruns the array.
- CApi.MallocInt takes a non-negative size. For a negative C `int` size, `malloc` receives a huge
  converted size and may return NULL, while the fill loop does nothing. The model has no NULL
  buffer, and the `printf` of the pointer is left out.
- CApi.ImgDataLoader.FromTensors and CApi.ImgDataLoader.FromDataset model only the loader state
  (sample count and cursor). The backend tensor creation and the initial loading task are left
  out.
- The cuDNN/cuBLAS handle initialisation tasks are modelled only as their results, stored into
  the handler array.
- `cnn.cc`'s VGG/DenseNet layer-building blocks, which `USE_VGG`/`USE_DENSENET` switch on, are
  reduced to the single `AddLayers` call. `CnnModel`'s and `RnnModel`'s own methods are not part
  of this model.
- The `ffmodel` backend calls (`conv2d`, `pool2d`, `flat`, `dense`, `softmax`, `create_tensor_*`,
  `get_layer_by_id`, `forward`, ...) are foreign calls. They are recorded as `BuildCall`/`Call`
  values and not executed.
- python/flexflow/keras/layers/base_layer.py is not part of this model. So the shared
  `_connect_layer_1_input_1_output` (`Dense`, `Flatten` and `Activation` `__call__`) and the
  `Layer` constructor's defaults (no id, empty lists) are not modelled; those defaults are assumed.
- Convolutional.Call and Convolutional.Link assume a `Tensor` link API: `set_from_layer`,
  `set_to_layer`, and `from_layer`/`to_layer` attributes that default to unset. input_layer.py's
  `Tensor` (lines 3-38) defines none of them. So `Conv2D.__call__` as written raises
  AttributeError at convolutional.py:77, after both tensors were appended (lines 74-75). The model
  makes the links the code evidently intends; Convolutional.LinkAsWritten models the code as
  written (see "## Findings").
- Convolutional.Call states on failure only which of its two stages failed: either nothing was
  appended, or both tensors were appended and the new shapes stored. It does not state which
  error message each check gives.
- KerasSequential.Sequential.CreateDataLoaders and KerasBaseModel.BaseModel.CreateDataLoaders
  state their failure paths: a failed input loader appends nothing, and a failed label loader
  leaves the input loader appended. `numSamples` is set in both cases.
- `MaxPooling2D` (pooling.py) is not part of this model. A MaxPooling2D layer carries the window
  arguments the graph builder reads (`kernel_size`, `stride`, `padding`). The `output_shape` that
  its own `calculate_inout_shape` would compute is supplied with the layer.
- KerasSequential.Sequential.Add models the reads of the predecessor's `output_shape` for
  MaxPooling2D, Flatten and Dense (sequential.py:79, 83, 87), including the AttributeError and the
  IndexError. It does not model what their `calculate_inout_shape` then does: pooling.py and
  base_layer.py are not part of this model. Those layers' attributes are left unchanged.
- Convolutional.NewConv2D takes `kernel_size`, `strides` and `padding` as sequences. The integer
  defaults 0 (convolutional.py:8) cannot be passed. On them `len` (line 14) and the indexing
  (lines 41-42) raise TypeError.
- The diagnostic prints are left out: `print(dtype)` (input_layer.py:8), the Conv2D shape prints
  (convolutional.py:45-46), `print(layer.handle)` and the shape prints of the data loaders.
- KerasSequential.Sequential.CreateLayerAndInitInout does not model `verify_inout_shape` or
  `layer.handle`, which need the backend's tensors.
- KerasSequential.Sequential.Train and KerasBaseModel.BaseModel.Train reduce the final
  `inline_map`/`get_array`/print of the tensors to a check that those tensors exist.
- KerasBaseModel.EpochCounts and KerasBaseModel.StepCounts give call counts per epoch and per
  step, not as one closed formula for the whole run. KerasBaseModel.EpochsOrder and
  KerasBaseModel.EpochLayout place every epoch and every step within the whole run.
- `compile`/the SGD optimizer, `fit`, `get_summary`, `get_weights`/`set_weights` and the cffi
  declarations are not modelled.
- `inputRaw.region_grad` and `part_grad` are never assigned in `model.cc`. The model does not
  state them.
- The C API's remaining `flexflow_*` wrappers only forward to `FFModel` methods. The model covers
  only the handle round trip `wrap`/`unwrap` that they all share.

## Findings

| source | as written | input that shows it | evidently intended | confidence | as-written member | corrected member |
|---|---|---|---|---|---|---|
| model.cc:55 | `extentN = 3 * batchSize / P`, then used as a stride of `3 * extentN` image samples and `extentN` raw columns, so workers with 3p >= P get empty blocks while the first third do all the work (the disjoint/complete asserts still pass) | `FFConfig(224, 224, 256, 1, 4, "")`: extentN = 192; image blocks [0, 576), [576, 768), empty, empty and raw blocks [0, 192), [192, 256), empty, empty, so workers 2 and 3 get nothing in either partition | `extentN = batchSize / P`, giving each of the P workers B/P samples | not executed; medium (the asserts do not catch it) | Model.AsWrittenTailCellsEmpty, Model.AsWrittenFourWorkers | Model.IntendedBlocks, Model.IntendedPartitions |
| model.cc:152-156 | `get_samples` never advances `sampleIter`, so every slot of the batch receives the same sample | samples [a, b], count 2: the batch is [a, a] | advance the cursor after each copy, wrapping at the end | not executed; high | Model.DataLoader.GetSamples, Model.AsWrittenMissesSamples | Model.DataLoader.GetSamplesIntended, Model.IntendedConsecutive |
| python/flexflow/keras/layers/convolutional.py:77 | `output_tensor.set_from_layer(self)`, and later `set_to_layer`, `from_layer`, are used on a `Tensor` of input_layer.py, which defines none of them | any `Conv2D(...)(Input(batch_shape=[64, 3, 229, 229], dtype="float32"))`: both tensors are appended, then AttributeError | a tensor link API that records the producing and consuming layer, unset by default | not executed; high | Convolutional.LinkAsWritten, Convolutional.LinkApiMissing | Convolutional.Link, Convolutional.Call |
