/**
 * The integer and bookkeeping logic of the C API in python/flexflow_c.cc:
 * opaque handle wrapping, `NetConfig`, `flexflow_malloc_int`, `calc_offset`,
 * and the sample cursor of `ImgDataLoader` and `ImgDataLoader2D`.
 */
module CApi {
  import opened Wrappers
  import opened ArgScan
  import opened Model

  // ---------------------------------------------------------------------
  // Opaque handles
  // ---------------------------------------------------------------------

  /** The object types that have an opaque C handle type. */
  datatype Wrapped =
    | ConfigObj | ModelObj | TensorObj | SgdOptimizerObj
    | GlorotUniformObj | ZeroInitializerObj | UniformInitializerObj | NormInitializerObj
    | OpObj | ParameterObj | NetConfigObj | DataLoaderObj | DataLoader2DObj

  /** A typed C++ pointer: the object type and an address, 0 being NULL. */
  datatype Pointer = Pointer(kind: Wrapped, address: nat)

  /** A handle `struct { void *impl; }` of the C type for `kind`. */
  datatype Handle = Handle(kind: Wrapped, impl: nat)

  /** `unwrap`: the address cast back to the handle type's object pointer. */
  function Unwrap(h: Handle): Pointer {
    Pointer(h.kind, h.impl)
  }

  /**
   * `wrap`: the pointer stored as `void *` in a handle of its type. The cast
   * to `void *` keeps the address, so `wrap_const`/`unwrap_const`, which add
   * and remove `const` around the same casts, are this pair too.
   */
  function Wrap(p: Pointer): (h: Handle)
    ensures Unwrap(h) == p
    ensures h.kind == p.kind
  {
    Handle(p.kind, p.address)
  }

  /** Wrapping is lossless in both directions. */
  lemma WrapRoundTrip(p: Pointer, h: Handle)
    ensures Unwrap(Wrap(p)) == p
    ensures Wrap(Unwrap(h)) == h
    ensures Wrap(p) == h <==> Unwrap(h) == p
  {
  }

  // ---------------------------------------------------------------------
  // NetConfig
  // ---------------------------------------------------------------------

  const DatasetFlag := "--dataset"

  /** The dataset path the command line selects: the value after the last `--dataset`, or empty. */
  function DatasetPath(argv: seq<string>): string {
    var last := Scan(argv, {DatasetFlag});
    if DatasetFlag in last then last[DatasetFlag] else ""
  }

  /** `NetConfig`: the options the C API's data loaders read. */
  class NetConfig {
    var datasetPath: string

    /** `NetConfig::NetConfig()`: scan the command line for `--dataset`. */
    constructor (argv: seq<string>)
      requires ValuesPresent(argv, {DatasetFlag}, 1)
      ensures datasetPath == DatasetPath(argv)
    {
      var last := ScanArgs(argv, {DatasetFlag});
      datasetPath := if DatasetFlag in last then last[DatasetFlag] else "";
    }
  }

  /** Without `--dataset` the path stays empty; otherwise it is the token after its last scanned occurrence. */
  lemma DatasetPathChoice(argv: seq<string>, j: nat)
    requires ValuesPresent(argv, {DatasetFlag}, 1)
    ensures !Occurs(argv, Heads(argv, {DatasetFlag}, 1), DatasetFlag) ==> DatasetPath(argv) == ""
    ensures LastAt(argv, Heads(argv, {DatasetFlag}, 1), j, DatasetFlag) ==>
      Heads(argv, {DatasetFlag}, 1)[j] + 1 < |argv|
      && DatasetPath(argv) == argv[Heads(argv, {DatasetFlag}, 1)[j] + 1]
  {
    ScanFromKeys(argv, {DatasetFlag}, 1, map[], DatasetFlag);
    if LastAt(argv, Heads(argv, {DatasetFlag}, 1), j, DatasetFlag) {
      ScanFromLastHead(argv, {DatasetFlag}, 1, map[], DatasetFlag, j);
    }
  }

  // ---------------------------------------------------------------------
  // flexflow_malloc_int and calc_offset
  // ---------------------------------------------------------------------

  /** `flexflow_malloc_int`: a new buffer of `size` ints, each set to 1. */
  method MallocInt(size: nat) returns (buffer: array<int>)
    ensures fresh(buffer) && buffer.Length == size
    ensures forall i :: 0 <= i < size ==> buffer[i] == 1
  {
    buffer := new int[size];
    var i := 0;
    while i < size
      invariant 0 <= i <= size
      invariant forall k :: 0 <= k < i ==> buffer[k] == 1
    {
      buffer[i] := 1;
      i := i + 1;
    }
  }

  /** `calc_offset`: the position of (c, y, x) in channel-major, row-major order. */
  function CalcOffset(c: int, y: int, x: int, yscale: int, xscale: int): int {
    c * yscale * xscale + y * xscale + x
  }

  /** The coordinates an in-range offset stands for. */
  function DecodeOffset(offset: int, yscale: int, xscale: int): (int, int, int)
    requires yscale > 0 && xscale > 0
  {
    (offset / (yscale * xscale), (offset % (yscale * xscale)) / xscale, offset % xscale)
  }

  /** With y and x inside their scales, the offset determines (c, y, x). */
  lemma {:induction false} OffsetDecodes(c: int, y: int, x: int, yscale: int, xscale: int)
    requires 0 <= y < yscale && 0 <= x < xscale
    ensures DecodeOffset(CalcOffset(c, y, x, yscale, xscale), yscale, xscale) == (c, y, x)
  {
    var plane := yscale * xscale;
    var within := y * xscale + x;
    assert within < plane by {
      MulMono(y + 1, yscale, xscale);
    }
    var o := CalcOffset(c, y, x, yscale, xscale);
    assert o == c * plane + within;
    ModUnique(o, c, within, plane);
    ModUnique(within, y, x, xscale);
    ModUnique(o, c * yscale + y, x, xscale);
  }

  /** So `calc_offset` is injective over in-range coordinates. */
  lemma OffsetInjective(c1: int, y1: int, x1: int, c2: int, y2: int, x2: int, yscale: int, xscale: int)
    requires 0 <= y1 < yscale && 0 <= x1 < xscale && 0 <= y2 < yscale && 0 <= x2 < xscale
    requires CalcOffset(c1, y1, x1, yscale, xscale) == CalcOffset(c2, y2, x2, yscale, xscale)
    ensures c1 == c2 && y1 == y2 && x1 == x2
  {
    OffsetDecodes(c1, y1, x1, yscale, xscale);
    OffsetDecodes(c2, y2, x2, yscale, xscale);
  }

  /** In-range coordinates of `channels` planes land in [0, channels * yscale * xscale). */
  lemma OffsetBounds(c: int, y: int, x: int, channels: int, yscale: int, xscale: int)
    requires 0 <= c < channels && 0 <= y < yscale && 0 <= x < xscale
    ensures 0 <= CalcOffset(c, y, x, yscale, xscale) < channels * yscale * xscale
  {
    MulMono(y + 1, yscale, xscale);
    MulMono(c + 1, channels, yscale * xscale);
    assert c * yscale * xscale == c * (yscale * xscale);
    assert channels * yscale * xscale == channels * (yscale * xscale);
  }

  // ---------------------------------------------------------------------
  // Sample count of a data loader
  // ---------------------------------------------------------------------

  /** Bytes per record of the binary dataset file: one label byte and 3 * 32 * 32 pixel bytes. */
  const RecordSize := 3073

  /**
   * The sample count of `ImgDataLoader(ff, config, input, label)`: a random
   * dataset of 256 * 10 samples per worker when no path is given, otherwise
   * one sample per record of the file, whose size must be a whole number of
   * records.
   */
  function SampleCount(datasetPath: string, fileSize: nat, workersPerNode: int, numNodes: int): Result<int> {
    if datasetPath == "" then Ok(256 * 10 * workersPerNode * numNodes)
    else if fileSize % RecordSize != 0 then Fail("dataset file size is not a multiple of 3073")
    else Ok(fileSize / RecordSize)
  }

  /** The count accounts for the whole file, or for 2560 samples per worker of the random dataset. */
  lemma SampleCountSpec(datasetPath: string, fileSize: nat, workersPerNode: int, numNodes: int)
    ensures datasetPath != "" ==>
      (SampleCount(datasetPath, fileSize, workersPerNode, numNodes).Ok? <==> fileSize % RecordSize == 0)
    ensures datasetPath != "" && SampleCount(datasetPath, fileSize, workersPerNode, numNodes).Ok? ==>
      SampleCount(datasetPath, fileSize, workersPerNode, numNodes).value * RecordSize == fileSize
    ensures datasetPath == "" ==>
      SampleCount(datasetPath, fileSize, workersPerNode, numNodes) == Ok(2560 * (workersPerNode * numNodes))
  {
  }

  // ---------------------------------------------------------------------
  // Sample-index assignment of next_batch
  // ---------------------------------------------------------------------

  /** The number of points of a rectangle (0 when some dimension is empty). */
  function Volume(lo: seq<int>, hi: seq<int>): (v: int)
    requires |lo| == |hi|
    ensures v >= 0
  {
    if |lo| == 0 then 1 else Max(0, hi[0] - lo[0] + 1) * Volume(lo[1..], hi[1..])
  }

  /** A rectangle with points has at least one coordinate in every dimension. */
  lemma {:induction false} VolumePositive(lo: seq<int>, hi: seq<int>, d: nat)
    requires |lo| == |hi| && d < |lo| && Volume(lo, hi) > 0
    ensures hi[d] - lo[d] + 1 > 0
  {
    assert Max(0, hi[0] - lo[0] + 1) > 0 && Volume(lo[1..], hi[1..]) > 0;
    if d > 0 {
      VolumePositive(lo[1..], hi[1..], d - 1);
    }
  }

  /** `SampleIdxs`: how many samples a grid point loads, and their indices. */
  datatype SampleIdxs = SampleIdxs(numSamples: int, idxs: seq<int>)

  /** The run of `n` indices that cell `c` of the grid receives, starting from `start`. */
  function CellRun(start: int, c: nat, n: nat): (r: seq<int>)
    ensures |r| == n
  {
    seq(n, i requires 0 <= i < n => start + c * n + i)
  }

  /** What the cells of a grid receive when each loads `perCell` samples from `start` on. */
  function Assignment(start: int, cells: nat, perCell: int): (r: seq<SampleIdxs>)
    ensures |r| == cells
    ensures forall c :: 0 <= c < cells ==>
      r[c].numSamples == perCell && r[c].idxs == CellRun(start, c, if perCell < 0 then 0 else perCell)
  {
    var n := if perCell < 0 then 0 else perCell;
    seq(cells, c requires 0 <= c < cells => SampleIdxs(perCell, CellRun(start, c, n)))
  }

  /**
   * The point loop of `next_batch` for one grid: each point, in iteration
   * order, takes the next `perCell` values of the counter `idx`.
   */
  method AssignRuns(start: int, cells: nat, perCell: int) returns (metas: seq<SampleIdxs>, idx: int)
    ensures metas == Assignment(start, cells, perCell)
    ensures idx == start + cells * (if perCell < 0 then 0 else perCell)
  {
    var n: nat := if perCell < 0 then 0 else perCell;
    metas := [];
    idx := start;
    var c := 0;
    while c < cells
      invariant 0 <= c <= cells
      invariant metas == Assignment(start, c, perCell)
      invariant idx == start + c * n
    {
      var idxs: seq<int> := [];
      var i := 0;
      while i < perCell
        invariant 0 <= i <= n
        invariant idxs == seq(i, k requires 0 <= k < i => start + c * n + k)
        invariant idx == start + c * n + i
      {
        idxs := idxs + [idx];
        idx := idx + 1;
        i := i + 1;
      }
      assert idxs == CellRun(start, c, n);
      metas := metas + [SampleIdxs(perCell, idxs)];
      assert c * n + n == (c + 1) * n;
      c := c + 1;
    }
  }

  /** Distinct (cell, position) pairs receive distinct sample indices: no sample is loaded twice. */
  lemma RunsDisjoint(start: int, n: nat, c1: nat, i1: nat, c2: nat, i2: nat)
    requires i1 < n && i2 < n
    requires CellRun(start, c1, n)[i1] == CellRun(start, c2, n)[i2]
    ensures c1 == c2 && i1 == i2
  {
    var t := CellRun(start, c1, n)[i1] - start;
    assert t == c1 * n + i1 && t == c2 * n + i2;
    ModUnique(t, c1, i1, n);
    ModUnique(t, c2, i2, n);
  }

  /** The runs are consecutive: together they are exactly [start, start + cells * n). */
  lemma RunsCover(start: int, cells: nat, n: nat, t: int)
    ensures (start <= t < start + cells * n) <==>
      exists c: nat, i :: c < cells && 0 <= i < n && CellRun(start, c, n)[i] == t
  {
    if start <= t < start + cells * n {
      var c := (t - start) / n;
      var i := (t - start) % n;
      assert t - start == c * n + i;
      assert c * n < cells * n;
      MulLess(c, cells, n);
      assert CellRun(start, c, n)[i] == t;
    }
    forall c: nat, i | c < cells && 0 <= i < n
      ensures start <= CellRun(start, c, n)[i] < start + cells * n
    {
      MulMono(c + 1, cells, n);
    }
  }

  /** When only the batch dimension is split, the points together load exactly one batch. */
  lemma WholeBatch(batchSize: int, extent: int)
    requires extent > 0 && batchSize >= 0 && batchSize % extent == 0
    ensures extent * (batchSize / extent) == batchSize
  {
  }

  /**
   * The grid requirement of `next_batch`: a grid with points has a non-zero
   * extent along dimension d, which divides batchSize.
   */
  predicate Divisible(lo: seq<int>, hi: seq<int>, d: nat, batchSize: int)
    requires |lo| == |hi| && d < |lo|
  {
    Volume(lo, hi) > 0 ==> hi[d] - lo[d] + 1 != 0 && batchSize % (hi[d] - lo[d] + 1) == 0
  }

  /**
   * What one half of `next_batch` hands to the points of a task grid whose
   * batch dimension is `d`. The divisibility assertion runs for each point,
   * so it only constrains a grid with points.
   */
  function Dispatch(lo: seq<int>, hi: seq<int>, d: nat, batchSize: int, start: int): (r: seq<SampleIdxs>)
    requires |lo| == |hi| && d < |lo| && Divisible(lo, hi, d, batchSize)
    ensures |r| == Volume(lo, hi)
  {
    if Volume(lo, hi) == 0 then []
    else Assignment(start, Volume(lo, hi), batchSize / (hi[d] - lo[d] + 1))
  }

  /** The point loop of one half of `next_batch`, over a grid with batch dimension d. */
  method DispatchGrid(lo: seq<int>, hi: seq<int>, d: nat, batchSize: int, start: int) returns (metas: seq<SampleIdxs>)
    requires |lo| == |hi| && d < |lo| && Divisible(lo, hi, d, batchSize)
    ensures metas == Dispatch(lo, hi, d, batchSize, start)
  {
    var v := Volume(lo, hi);
    if v == 0 {
      metas := [];
    } else {
      VolumePositive(lo, hi, d);
      var idx;
      metas, idx := AssignRuns(start, v, batchSize / (hi[d] - lo[d] + 1));
    }
  }

  /** Each point of a grid with points loads batchSize / extent samples, the extent being positive. */
  lemma DispatchPerCell(lo: seq<int>, hi: seq<int>, d: nat, batchSize: int, start: int, c: nat)
    requires |lo| == |hi| && d < |lo| && Divisible(lo, hi, d, batchSize) && c < Volume(lo, hi)
    ensures hi[d] - lo[d] + 1 > 0
    ensures Dispatch(lo, hi, d, batchSize, start)[c].numSamples == batchSize / (hi[d] - lo[d] + 1)
  {
    VolumePositive(lo, hi, d);
  }

  /**
   * When the grid splits only the batch dimension, its points together load
   * the indices [start, start + batchSize), each once (`RunsDisjoint`).
   */
  lemma DispatchLoadsBatch(lo: seq<int>, hi: seq<int>, d: nat, batchSize: int, start: int, t: int)
    requires |lo| == |hi| && d < |lo| && Divisible(lo, hi, d, batchSize) && batchSize >= 0
    requires Volume(lo, hi) > 0 && Volume(lo, hi) == hi[d] - lo[d] + 1
    ensures var n := batchSize / Volume(lo, hi);
      && Dispatch(lo, hi, d, batchSize, start) == Assignment(start, Volume(lo, hi), n)
      && Volume(lo, hi) * n == batchSize
      && ((start <= t < start + batchSize) <==>
          exists c: nat, i :: c < Volume(lo, hi) && 0 <= i < n && CellRun(start, c, n)[i] == t)
  {
    var v := Volume(lo, hi);
    WholeBatch(batchSize, v);
    RunsCover(start, v, batchSize / v, t);
  }

  // ---------------------------------------------------------------------
  // The loaders
  // ---------------------------------------------------------------------

  /**
   * `ImgDataLoader`: a 4-D image input (batch dimension 3) and a 2-D label
   * (batch dimension 1), with a cursor `nextIndex` into the full dataset.
   * The tensors and the index launches that copy the samples are not modelled.
   */
  class ImgDataLoader {
    var numSamples: int
    var nextIndex: int

    /**
     * `ImgDataLoader(ff, config, input, label, full_input, full_label,
     * num_samples)`: takes the count as given, then `reset(); next_batch(ff);`.
     */
    constructor FromTensors(count: int, batchSize: int, inLo: seq<int>, inHi: seq<int>, labLo: seq<int>, labHi: seq<int>)
      requires |inLo| == |inHi| == 4 && |labLo| == |labHi| == 2
      requires Divisible(inLo, inHi, 3, batchSize) && Divisible(labLo, labHi, 1, batchSize)
      ensures numSamples == count && nextIndex == batchSize
    {
      numSamples := count;
      nextIndex := 0;
      new;
      Reset();
      var inputs, labels := NextBatch(batchSize, inLo, inHi, labLo, labHi);
    }

    /**
     * `ImgDataLoader(ff, config, input, label)`: the count of the random or
     * file dataset (the file size is given), then `reset(); next_batch(ff);`.
     */
    constructor FromDataset(datasetPath: string, fileSize: nat, workersPerNode: int, numNodes: int,
                            batchSize: int, inLo: seq<int>, inHi: seq<int>, labLo: seq<int>, labHi: seq<int>)
      requires datasetPath != "" ==> fileSize % RecordSize == 0
      requires |inLo| == |inHi| == 4 && |labLo| == |labHi| == 2
      requires Divisible(inLo, inHi, 3, batchSize) && Divisible(labLo, labHi, 1, batchSize)
      ensures SampleCount(datasetPath, fileSize, workersPerNode, numNodes) == Ok(numSamples)
      ensures nextIndex == batchSize
    {
      numSamples := SampleCount(datasetPath, fileSize, workersPerNode, numNodes).value;
      nextIndex := 0;
      new;
      Reset();
      var inputs, labels := NextBatch(batchSize, inLo, inHi, labLo, labHi);
    }

    /** `reset`: the cursor goes back to the first sample. */
    method Reset()
      modifies this
      ensures nextIndex == 0 && numSamples == old(numSamples)
    {
      nextIndex := 0;
    }

    /**
     * `next_batch`: both grids' points receive runs starting at the same
     * cursor, then the cursor moves on by one batch, without wrapping.
     */
    method NextBatch(batchSize: int, inLo: seq<int>, inHi: seq<int>, labLo: seq<int>, labHi: seq<int>)
      returns (inputs: seq<SampleIdxs>, labels: seq<SampleIdxs>)
      requires |inLo| == |inHi| == 4 && |labLo| == |labHi| == 2
      requires Divisible(inLo, inHi, 3, batchSize) && Divisible(labLo, labHi, 1, batchSize)
      modifies this
      ensures inputs == Dispatch(inLo, inHi, 3, batchSize, old(nextIndex))
      ensures labels == Dispatch(labLo, labHi, 1, batchSize, old(nextIndex))
      ensures nextIndex == old(nextIndex) + batchSize && numSamples == old(numSamples)
    {
      inputs := DispatchGrid(inLo, inHi, 3, batchSize, nextIndex);
      labels := DispatchGrid(labLo, labHi, 1, batchSize, nextIndex);
      nextIndex := nextIndex + batchSize;
    }
  }

  /** `ImgDataLoader2D`: a 2-D input and a 2-D label, both with batch dimension 1. */
  class ImgDataLoader2D {
    var numSamples: int
    var nextIndex: int

    /** `ImgDataLoader2D(ff, config, input, label, full_input, full_label, num_samples)`. */
    constructor (count: int, batchSize: int, inLo: seq<int>, inHi: seq<int>, labLo: seq<int>, labHi: seq<int>)
      requires |inLo| == |inHi| == 2 && |labLo| == |labHi| == 2
      requires Divisible(inLo, inHi, 1, batchSize) && Divisible(labLo, labHi, 1, batchSize)
      ensures numSamples == count && nextIndex == batchSize
    {
      numSamples := count;
      nextIndex := 0;
      new;
      Reset();
      var inputs, labels := NextBatch(batchSize, inLo, inHi, labLo, labHi);
    }

    /** `reset`: the cursor goes back to the first sample. */
    method Reset()
      modifies this
      ensures nextIndex == 0 && numSamples == old(numSamples)
    {
      nextIndex := 0;
    }

    /** `next_batch`: as for `ImgDataLoader`, with both grids split along dimension 1. */
    method NextBatch(batchSize: int, inLo: seq<int>, inHi: seq<int>, labLo: seq<int>, labHi: seq<int>)
      returns (inputs: seq<SampleIdxs>, labels: seq<SampleIdxs>)
      requires |inLo| == |inHi| == 2 && |labLo| == |labHi| == 2
      requires Divisible(inLo, inHi, 1, batchSize) && Divisible(labLo, labHi, 1, batchSize)
      modifies this
      ensures inputs == Dispatch(inLo, inHi, 1, batchSize, old(nextIndex))
      ensures labels == Dispatch(labLo, labHi, 1, batchSize, old(nextIndex))
      ensures nextIndex == old(nextIndex) + batchSize && numSamples == old(numSamples)
    {
      inputs := DispatchGrid(inLo, inHi, 1, batchSize, nextIndex);
      labels := DispatchGrid(labLo, labHi, 1, batchSize, nextIndex);
      nextIndex := nextIndex + batchSize;
    }
  }

  /**
   * Input and label grids of the same shape along their batch dimensions
   * receive the same assignment, since both start from the same cursor.
   */
  lemma InputMatchesLabel(inLo: seq<int>, inHi: seq<int>, labLo: seq<int>, labHi: seq<int>, batchSize: int, start: int)
    requires |inLo| == |inHi| == 4 && |labLo| == |labHi| == 2
    requires Divisible(inLo, inHi, 3, batchSize) && Divisible(labLo, labHi, 1, batchSize)
    requires Volume(inLo, inHi) == Volume(labLo, labHi) && inHi[3] - inLo[3] == labHi[1] - labLo[1]
    ensures Dispatch(inLo, inHi, 3, batchSize, start) == Dispatch(labLo, labHi, 1, batchSize, start)
  {
  }

  /**
   * Without a reset in between, batch j after a reset sends every point, on the
   * input grid and the label grid alike, the runs that start at sample j * batchSize.
   */
  method Batches(loader: ImgDataLoader, k: nat, batchSize: int, inLo: seq<int>, inHi: seq<int>, labLo: seq<int>, labHi: seq<int>)
    returns (inputs: seq<seq<SampleIdxs>>, labels: seq<seq<SampleIdxs>>)
    requires |inLo| == |inHi| == 4 && |labLo| == |labHi| == 2
    requires Divisible(inLo, inHi, 3, batchSize) && Divisible(labLo, labHi, 1, batchSize)
    modifies loader
    ensures |inputs| == k && forall j :: 0 <= j < k ==> inputs[j] == Dispatch(inLo, inHi, 3, batchSize, j * batchSize)
    ensures |labels| == k && forall j :: 0 <= j < k ==> labels[j] == Dispatch(labLo, labHi, 1, batchSize, j * batchSize)
    ensures loader.nextIndex == k * batchSize
  {
    loader.Reset();
    inputs, labels := [], [];
    while |inputs| < k
      invariant |inputs| == |labels| <= k
      invariant forall j :: 0 <= j < |inputs| ==> inputs[j] == Dispatch(inLo, inHi, 3, batchSize, j * batchSize)
      invariant forall j :: 0 <= j < |labels| ==> labels[j] == Dispatch(labLo, labHi, 1, batchSize, j * batchSize)
      invariant loader.nextIndex == |inputs| * batchSize
    {
      var batchIn, batchLab := loader.NextBatch(batchSize, inLo, inHi, labLo, labHi);
      inputs, labels := inputs + [batchIn], labels + [batchLab];
    }
  }
}
