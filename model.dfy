/**
 * The input set-up of `FFModel::FFModel` in model.cc: the worker grid, the
 * restriction partitions of the image and raw-image regions over it, and the
 * descriptors of the two input tensors; and `DataLoader::get_samples`.
 */
module Model {
  import opened Wrappers

  /** The fields of `FFConfig` that the constructor reads. */
  datatype FFConfig = FFConfig(
    inputWidth: int, inputHeight: int, batchSize: int,
    numNodes: int, workersPerNode: int, datasetPath: string)

  /** An inclusive rectangle of integer points: lo[d] <= x[d] <= hi[d] in every dimension d. */
  datatype Rect = Rect(lo: seq<int>, hi: seq<int>)

  predicate Contains(r: Rect, x: seq<int>) {
    |x| == |r.lo| == |r.hi| && forall d :: 0 <= d < |x| ==> r.lo[d] <= x[d] <= r.hi[d]
  }

  predicate RectEmpty(r: Rect)
    requires |r.lo| == |r.hi|
  {
    exists d :: 0 <= d < |r.lo| && r.lo[d] > r.hi[d]
  }

  /** A rectangle holds a point exactly when no dimension is empty: its low corner. */
  lemma NonEmptyHasPoint(r: Rect, x: seq<int>)
    requires |r.lo| == |r.hi|
    ensures !RectEmpty(r) ==> Contains(r, r.lo)
    ensures Contains(r, x) ==> !RectEmpty(r)
  {
  }

  function Max(a: int, b: int): int { if a < b then b else a }
  function Min(a: int, b: int): int { if a < b then a else b }

  /** Row `row` of a transform applied to grid point `c`. */
  function Dot(row: seq<int>, c: seq<int>): int
    requires |row| == |c|
  {
    if |row| == 0 then 0 else row[0] * c[0] + Dot(row[1..], c[1..])
  }

  lemma Dot3(a: int, b: int, c: int, x: int, y: int, z: int)
    ensures Dot([a, b, c], [x, y, z]) == a * x + b * y + c * z
  {
    assert [a, b, c][1..] == [b, c] && [x, y, z][1..] == [y, z];
    assert [b, c][1..] == [c] && [y, z][1..] == [z];
    assert [c][1..] == [] && [z][1..] == [];
    assert Dot([c], [z]) == c * z;
    assert Dot([b, c], [y, z]) == b * y + c * z;
  }

  /**
   * A partition by restriction: grid point c gets the extent rectangle moved
   * by transform * c, clipped to the parent.
   */
  datatype Restriction = Restriction(parent: Rect, grid: Rect, transform: seq<seq<int>>, extent: Rect)

  predicate Shaped(r: Restriction) {
    |r.parent.lo| == |r.parent.hi| == |r.extent.lo| == |r.extent.hi| == |r.transform|
    && |r.grid.lo| == |r.grid.hi|
    && forall d :: 0 <= d < |r.transform| ==> |r.transform[d]| == |r.grid.lo|
  }

  function Block(r: Restriction, c: seq<int>): (b: Rect)
    requires Shaped(r) && |c| == |r.grid.lo|
    ensures |b.lo| == |b.hi| == |r.parent.lo|
  {
    var n := |r.parent.lo|;
    Rect(seq(n, d requires 0 <= d < n => Max(r.parent.lo[d], Dot(r.transform[d], c) + r.extent.lo[d])),
         seq(n, d requires 0 <= d < n => Min(r.parent.hi[d], Dot(r.transform[d], c) + r.extent.hi[d])))
  }

  /** No point of the parent lies in the blocks of two different grid points. */
  ghost predicate Disjoint(r: Restriction)
    requires Shaped(r)
  {
    forall c1, c2, x :: Contains(r.grid, c1) && Contains(r.grid, c2) && c1 != c2 && Contains(Block(r, c1), x)
      ==> !Contains(Block(r, c2), x)
  }

  /** Every point of the parent lies in the block of some grid point. */
  ghost predicate Complete(r: Restriction)
    requires Shaped(r)
  {
    forall x :: Contains(r.parent, x) ==> exists c :: Contains(r.grid, c) && Contains(Block(r, c), x)
  }

  /** The number of workers, `numNodes * workersPerNode`. */
  function Workers(config: FFConfig): int {
    config.numNodes * config.workersPerNode
  }

  /** `part_rect`: the worker grid (0, 0, 0) .. (0, 0, P - 1). */
  function PartRect(config: FFConfig): Rect {
    Rect([0, 0, 0], [0, 0, Workers(config) - 1])
  }

  /** `image_rect`: width, height and 3 * batchSize (channels times samples). */
  function ImageRect(config: FFConfig): Rect {
    Rect([0, 0, 0], [config.inputWidth - 1, config.inputHeight - 1, 3 * config.batchSize - 1])
  }

  /** `extentHWC`: the values of one raw image. */
  function ExtentHWC(config: FFConfig): int {
    config.inputHeight * config.inputWidth * 3
  }

  /** `raw_rect`: one column of H * W * 3 values per sample. */
  function RawRect(config: FFConfig): Rect {
    Rect([0, 0], [ExtentHWC(config) - 1, config.batchSize - 1])
  }

  /** Whether the constructor's assertion on the batch size can hold at all. */
  predicate Divides(config: FFConfig) {
    Workers(config) != 0 && config.batchSize % Workers(config) == 0
  }

  /**
   * `extentN` as written: 3 * batchSize / P. The quotient is exact once P
   * divides batchSize, so C's truncating division and Dafny's agree.
   */
  function ExtentN(config: FFConfig): int
    requires Divides(config)
  {
    3 * config.batchSize / Workers(config)
  }

  /** The image partition for a per-cell extent `e` of samples: stride and extent 3 * e along dimension 2. */
  function ImagePartition(config: FFConfig, e: int): (r: Restriction)
    ensures Shaped(r)
  {
    var w := config.inputWidth;
    var h := config.inputHeight;
    Restriction(ImageRect(config), PartRect(config),
                [[w, 0, 0], [0, h, 0], [0, 0, 3 * e]],
                Rect([0, 0, 0], [w - 1, h - 1, 3 * e - 1]))
  }

  /** The raw partition for a per-cell extent `e`: all of dimension 0, stride and extent e along dimension 1. */
  function RawPartition(config: FFConfig, e: int): (r: Restriction)
    ensures Shaped(r)
  {
    Restriction(RawRect(config), PartRect(config),
                [[0, 0, 0], [0, 0, e]],
                Rect([0, 0], [ExtentHWC(config) - 1, e - 1]))
  }

  /** A Legion logical region, or `NO_REGION`. */
  datatype LogicalRegion = NoRegion | Region(space: Rect)

  /** A Legion logical partition, or `NO_PART`. */
  datatype LogicalPartition = NoPart | Partition(restriction: Restriction)

  /** The `Tensor` record of include/model.h: only the first `numDim` sizes are meaningful. */
  datatype Tensor = Tensor(
    numDim: nat, adim: seq<int>, pdim: seq<int>,
    region: LogicalRegion, regionGrad: LogicalRegion,
    part: LogicalPartition, partGrad: LogicalPartition)

  /** What the constructor sets up: whether a `DataLoader` exists, and the two input tensors. */
  datatype FFModel = FFModel(hasDataLoader: bool, inputImage: Tensor, inputRaw: Tensor)

  /**
   * `FFModel::FFModel`. It fails where the code aborts: P = 0 divides by zero,
   * the assertion on batchSize % P, and the completeness assertions, which
   * (as lemma `BuildSucceeds` shows) fail only for an empty worker grid under
   * a non-empty region. `inputRaw` keeps its default `NO_REGION`/`NO_PART`
   * gradient handles.
   */
  function BuildFFModel(config: FFConfig): Result<FFModel> {
    var p := Workers(config);
    if p == 0 then Fail("numNodes * workersPerNode is 0")
    else if config.batchSize % p != 0 then Fail("batchSize is not divisible by numNodes * workersPerNode")
    else if p < 0 && !RectEmpty(ImageRect(config)) then Fail("image partition is not complete")
    else if p < 0 && !RectEmpty(RawRect(config)) then Fail("raw partition is not complete")
    else
      var e := ExtentN(config);
      var w := config.inputWidth;
      var h := config.inputHeight;
      var b := config.batchSize;
      var hwc := ExtentHWC(config);
      Ok(FFModel(
        config.datasetPath != "",
        Tensor(4, [w, h, 3, b], [w, h, 3, e],
               Region(ImageRect(config)), NoRegion, Partition(ImagePartition(config, e)), NoPart),
        Tensor(2, [hwc, b], [hwc, e],
               Region(RawRect(config)), NoRegion, Partition(RawPartition(config, e)), NoPart)))
  }

  /** The grid has exactly P cells, (0, 0, p) for 0 <= p < P. */
  lemma GridCells(config: FFConfig, c: seq<int>)
    ensures Contains(PartRect(config), c) <==> |c| == 3 && c == [0, 0, c[2]] && 0 <= c[2] < Workers(config)
  {
    if |c| == 3 && c == [0, 0, c[2]] && 0 <= c[2] < Workers(config) {
      assert forall d :: 0 <= d < 3 ==> PartRect(config).lo[d] <= c[d] <= PartRect(config).hi[d];
    }
  }

  lemma MulLess(a: int, b: int, k: int)
    requires k > 0 && a * k < b * k
    ensures a < b
  {
  }

  /** Cell p of the image partition: full width and height, dimension 2 from 3ep to 3e(p + 1), clipped. */
  lemma ImageBlock(config: FFConfig, e: int, p: int)
    ensures Block(ImagePartition(config, e), [0, 0, p])
            == Rect([0, 0, Max(0, 3 * e * p)],
                    [config.inputWidth - 1, config.inputHeight - 1, Min(3 * config.batchSize - 1, 3 * e * p + 3 * e - 1)])
  {
    var w := config.inputWidth;
    var h := config.inputHeight;
    Dot3(w, 0, 0, 0, 0, p);
    Dot3(0, h, 0, 0, 0, p);
    Dot3(0, 0, 3 * e, 0, 0, p);
  }

  /** Cell p of the raw partition: every value of dimension 0, dimension 1 from ep to e(p + 1), clipped. */
  lemma RawBlock(config: FFConfig, e: int, p: int)
    ensures Block(RawPartition(config, e), [0, 0, p])
            == Rect([0, Max(0, e * p)], [ExtentHWC(config) - 1, Min(config.batchSize - 1, e * p + e - 1)])
  {
    Dot3(0, 0, 0, 0, 0, p);
    Dot3(0, 0, e, 0, 0, p);
  }

  /** Membership in an image block, per coordinate. */
  lemma InImageBlock(config: FFConfig, e: int, p: int, x: seq<int>)
    ensures Contains(Block(ImagePartition(config, e), [0, 0, p]), x)
            <==> |x| == 3 && Contains(ImageRect(config), x) && 3 * e * p <= x[2] < 3 * e * p + 3 * e
  {
    ImageBlock(config, e, p);
  }

  /** Membership in a raw block, per coordinate. */
  lemma InRawBlock(config: FFConfig, e: int, p: int, x: seq<int>)
    ensures Contains(Block(RawPartition(config, e), [0, 0, p]), x)
            <==> |x| == 2 && Contains(RawRect(config), x) && e * p <= x[1] < e * p + e
  {
    RawBlock(config, e, p);
  }

  /** Two runs [k*p, k*p + k) and [k*q, k*q + k) that share a point start at the same cell. */
  lemma SameRun(k: int, p: int, q: int, z: int)
    requires k * p <= z < k * p + k && k * q <= z < k * q + k
    ensures p == q
  {
    assert k > 0;
    assert p * k < (q + 1) * k;
    MulLess(p, q + 1, k);
    assert q * k < (p + 1) * k;
    MulLess(q, p + 1, k);
  }

  /** The run of length k holding z >= 0 is that of cell z / k, and it lies below P when z < k * P. */
  lemma RunOf(k: int, z: int, p: int)
    requires k > 0 && 0 <= z < k * p
    ensures 0 <= z / k < p && k * (z / k) <= z < k * (z / k) + k
  {
    assert z == k * (z / k) + z % k;
    assert (z / k) * k < p * k;
    MulLess(z / k, p, k);
  }

  /** The image blocks never overlap, whatever the extent. */
  lemma ImageDisjoint(config: FFConfig, e: int)
    ensures Disjoint(ImagePartition(config, e))
  {
    var r := ImagePartition(config, e);
    forall c1, c2, x | Contains(r.grid, c1) && Contains(r.grid, c2) && c1 != c2 && Contains(Block(r, c1), x)
      ensures !Contains(Block(r, c2), x)
    {
      GridCells(config, c1);
      GridCells(config, c2);
      InImageBlock(config, e, c1[2], x);
      InImageBlock(config, e, c2[2], x);
      if Contains(Block(r, c2), x) {
        SameRun(3 * e, c1[2], c2[2], x[2]);
      }
    }
  }

  /** The raw blocks never overlap, whatever the extent. */
  lemma RawDisjoint(config: FFConfig, e: int)
    ensures Disjoint(RawPartition(config, e))
  {
    var r := RawPartition(config, e);
    forall c1, c2, x | Contains(r.grid, c1) && Contains(r.grid, c2) && c1 != c2 && Contains(Block(r, c1), x)
      ensures !Contains(Block(r, c2), x)
    {
      GridCells(config, c1);
      GridCells(config, c2);
      InRawBlock(config, e, c1[2], x);
      InRawBlock(config, e, c2[2], x);
      if Contains(Block(r, c2), x) {
        SameRun(e, c1[2], c2[2], x[1]);
      }
    }
  }

  /** On a non-empty grid, the image blocks cover the region once P cells of e samples hold the batch. */
  lemma ImageComplete(config: FFConfig, e: int)
    requires Workers(config) > 0
    requires config.batchSize > 0 ==> e * Workers(config) >= config.batchSize
    ensures Complete(ImagePartition(config, e))
  {
    var r := ImagePartition(config, e);
    var n := Workers(config);
    forall x | Contains(r.parent, x)
      ensures exists c :: Contains(r.grid, c) && Contains(Block(r, c), x)
    {
      assert 0 <= x[2] <= 3 * config.batchSize - 1;
      assert 3 * e * n >= 3 * config.batchSize;
      RunOf(3 * e, x[2], n);
      var p := x[2] / (3 * e);
      GridCells(config, [0, 0, p]);
      InImageBlock(config, e, p, x);
    }
  }

  /** On a non-empty grid, the raw blocks cover the region once P cells of e samples hold the batch. */
  lemma RawComplete(config: FFConfig, e: int)
    requires Workers(config) > 0
    requires config.batchSize > 0 ==> e * Workers(config) >= config.batchSize
    ensures Complete(RawPartition(config, e))
  {
    var r := RawPartition(config, e);
    var n := Workers(config);
    forall x | Contains(r.parent, x)
      ensures exists c :: Contains(r.grid, c) && Contains(Block(r, c), x)
    {
      assert 0 <= x[1] <= config.batchSize - 1;
      RunOf(e, x[1], n);
      var p := x[1] / e;
      GridCells(config, [0, 0, p]);
      InRawBlock(config, e, p, x);
    }
  }

  /** On an empty grid a partition is complete exactly when its parent is empty. */
  lemma EmptyGridComplete(r: Restriction, config: FFConfig)
    requires Shaped(r) && r.grid == PartRect(config) && Workers(config) <= 0
    ensures Complete(r) <==> RectEmpty(r.parent)
  {
    forall c | Contains(r.grid, c)
      ensures false
    {
      GridCells(config, c);
    }
    NonEmptyHasPoint(r.parent, r.parent.lo);
    if RectEmpty(r.parent) {
      forall x | Contains(r.parent, x)
        ensures false
      {
        NonEmptyHasPoint(r.parent, x);
      }
    }
  }

  /** A multiple of n that is smaller than |n| in magnitude is 0. */
  lemma SmallMultiple(t: int, n: int)
    requires n != 0 && -(if n < 0 then -n else n) < t * n < (if n < 0 then -n else n)
    ensures t == 0
  {
    if t > 0 {
      if n > 0 { MulMono(1, t, n); } else { MulMono(1, t, -n); }
    } else if t < 0 {
      if n > 0 { MulMono(1, -t, n); } else { MulMono(1, -t, -n); }
    }
  }

  lemma MulMono(a: int, b: int, k: int)
    requires 0 <= a <= b && 0 <= k
    ensures a * k <= b * k
  {
  }

  /** Dividing an exact multiple of n by n. */
  lemma ExactQuotient(q: int, n: int)
    requires n != 0
    ensures (q * n) / n == q
  {
    var m := q * n;
    assert m == (m / n) * n + m % n;
    assert (q - m / n) * n == m % n;
    SmallMultiple(q - m / n, n);
  }

  /** As written, P cells of `extentN` samples hold three times the batch. */
  lemma ExtentNTimesWorkers(config: FFConfig)
    ensures Divides(config) ==> ExtentN(config) == 3 * (config.batchSize / Workers(config))
    ensures Divides(config) ==> ExtentN(config) * Workers(config) == 3 * config.batchSize
  {
    if Divides(config) {
      var n := Workers(config);
      var b := config.batchSize;
      var q := b / n;
      assert b == q * n;
      assert 3 * b == (3 * q) * n;
      ExactQuotient(3 * q, n);
    }
  }

  /**
   * The constructor succeeds exactly when P divides the batch size and both
   * partitions it builds pass the disjointness and completeness assertions.
   */
  lemma BuildSucceeds(config: FFConfig)
    ensures BuildFFModel(config).Ok? <==>
      Divides(config)
      && Disjoint(ImagePartition(config, ExtentN(config))) && Complete(ImagePartition(config, ExtentN(config)))
      && Disjoint(RawPartition(config, ExtentN(config))) && Complete(RawPartition(config, ExtentN(config)))
  {
    if Divides(config) {
      var e := ExtentN(config);
      ImageDisjoint(config, e);
      RawDisjoint(config, e);
      if Workers(config) > 0 {
        ExtentNTimesWorkers(config);
        ImageComplete(config, e);
        RawComplete(config, e);
      } else {
        EmptyGridComplete(ImagePartition(config, e), config);
        EmptyGridComplete(RawPartition(config, e), config);
      }
    }
  }

  /**
   * The two input tensors: `inputImage` is (W, H, 3, batchSize) split into (W,
   * H, 3, extentN) parts with no gradient region or partition, `inputRaw` is
   * (H * W * 3, batchSize) split into (H * W * 3, extentN) parts, and each
   * tensor's partition is a disjoint, complete partition of its own region.
   * Along the split dimension, P parts of `pdim` hold three times `adim`.
   */
  lemma InputTensors(config: FFConfig)
    requires BuildFFModel(config).Ok?
    ensures var m := BuildFFModel(config).value;
      var img := m.inputImage;
      var raw := m.inputRaw;
      var w := config.inputWidth;
      var h := config.inputHeight;
      var e := ExtentN(config);
      && (m.hasDataLoader <==> |config.datasetPath| > 0)
      && img.numDim == 4 && img.adim == [w, h, 3, config.batchSize] && img.pdim == [w, h, 3, e]
      && img.regionGrad == NoRegion && img.partGrad == NoPart
      && img.region == Region(img.part.restriction.parent)
      && Disjoint(img.part.restriction) && Complete(img.part.restriction)
      && img.pdim[3] * Workers(config) == 3 * img.adim[3]
      && raw.numDim == 2 && raw.adim == [h * w * 3, config.batchSize] && raw.pdim == [h * w * 3, e]
      && raw.region == Region(raw.part.restriction.parent)
      && Disjoint(raw.part.restriction) && Complete(raw.part.restriction)
      && raw.pdim[1] * Workers(config) == 3 * raw.adim[1]
  {
    BuildSucceeds(config);
    ExtentNTimesWorkers(config);
  }

  /**
   * As written, cells p with 3p >= P get an empty image block and an empty raw
   * block: with extentN = 3 * batchSize / P the first cells already cover the
   * whole batch.
   */
  lemma AsWrittenTailCellsEmpty(config: FFConfig, p: int)
    requires Divides(config) && Workers(config) > 0 && config.batchSize > 0
    requires 0 <= p < Workers(config) && 3 * p >= Workers(config)
    ensures RectEmpty(Block(ImagePartition(config, ExtentN(config)), [0, 0, p]))
    ensures RectEmpty(Block(RawPartition(config, ExtentN(config)), [0, 0, p]))
  {
    var n := Workers(config);
    var b := config.batchSize;
    var e := ExtentN(config);
    var q := b / n;
    ExtentNTimesWorkers(config);
    assert b == q * n;
    TailArith(e, q, n, p, b);
    ImageBlock(config, e, p);
    RawBlock(config, e, p);
    var img := Block(ImagePartition(config, e), [0, 0, p]);
    var raw := Block(RawPartition(config, e), [0, 0, p]);
    assert img.lo[2] > img.hi[2];
    assert raw.lo[1] > raw.hi[1];
  }

  /** With e = 3q samples per cell and b = qn, cells p with 3p >= n start past the batch. */
  lemma TailArith(e: int, q: int, n: int, p: int, b: int)
    requires e == 3 * q && b == q * n && n > 0 && b > 0 && 0 <= p && 3 * p >= n
    ensures e * p >= b && 3 * e * p >= 3 * b
  {
    assert q > 0 by {
      if q <= 0 { MulMono(1, n, -q); }
    }
    MulMono(n, 3 * p, q);
    assert e * p == (3 * p) * q;
  }

  /** The default four-worker set-up of a single node: cells 2 and 3 receive no samples. */
  lemma AsWrittenFourWorkers()
    ensures RectEmpty(Block(ImagePartition(FFConfig(224, 224, 256, 1, 4, ""), ExtentN(FFConfig(224, 224, 256, 1, 4, ""))), [0, 0, 2]))
    ensures RectEmpty(Block(ImagePartition(FFConfig(224, 224, 256, 1, 4, ""), ExtentN(FFConfig(224, 224, 256, 1, 4, ""))), [0, 0, 3]))
    ensures RectEmpty(Block(RawPartition(FFConfig(224, 224, 256, 1, 4, ""), ExtentN(FFConfig(224, 224, 256, 1, 4, ""))), [0, 0, 2]))
    ensures RectEmpty(Block(RawPartition(FFConfig(224, 224, 256, 1, 4, ""), ExtentN(FFConfig(224, 224, 256, 1, 4, ""))), [0, 0, 3]))
  {
    AsWrittenTailCellsEmpty(FFConfig(224, 224, 256, 1, 4, ""), 2);
    AsWrittenTailCellsEmpty(FFConfig(224, 224, 256, 1, 4, ""), 3);
  }

  /** The evidently intended per-cell sample count: batchSize / P. */
  function IntendedExtentN(config: FFConfig): int
    requires Divides(config)
  {
    config.batchSize / Workers(config)
  }

  /** With batchSize / P samples per cell, every cell's block is its own unclipped share of the batch. */
  lemma IntendedBlocks(config: FFConfig, p: int)
    requires Divides(config) && Workers(config) > 0 && config.batchSize >= 0
    requires 0 <= p < Workers(config)
    ensures var q := IntendedExtentN(config);
      && Block(ImagePartition(config, q), [0, 0, p])
         == Rect([0, 0, 3 * q * p], [config.inputWidth - 1, config.inputHeight - 1, 3 * q * p + 3 * q - 1])
      && Block(RawPartition(config, q), [0, 0, p]) == Rect([0, q * p], [ExtentHWC(config) - 1, q * p + q - 1])
  {
    var n := Workers(config);
    var b := config.batchSize;
    var q := IntendedExtentN(config);
    assert b == q * n;
    BlockFits(q, n, p, b);
    ImageBlock(config, q, p);
    RawBlock(config, q, p);
  }

  /** Cell p < n of q samples each lies inside a batch of b = qn samples. */
  lemma BlockFits(q: int, n: int, p: int, b: int)
    requires b == q * n && b >= 0 && 0 <= p < n
    ensures 0 <= q * p && q * p + q <= b
    ensures 0 <= 3 * q * p && 3 * q * p + 3 * q <= 3 * b
  {
    assert q >= 0 by {
      if q < 0 { MulMono(1, n, -q); }
    }
    MulMono(p + 1, n, q);
    MulMono(0, p, q);
    assert q * p + q == (p + 1) * q;
  }

  /** With batchSize / P samples per cell both partitions stay disjoint and complete. */
  lemma IntendedPartitions(config: FFConfig)
    requires Divides(config) && Workers(config) > 0 && config.batchSize >= 0
    ensures Disjoint(ImagePartition(config, IntendedExtentN(config)))
    ensures Complete(ImagePartition(config, IntendedExtentN(config)))
    ensures Disjoint(RawPartition(config, IntendedExtentN(config)))
    ensures Complete(RawPartition(config, IntendedExtentN(config)))
  {
    var n := Workers(config);
    var q := IntendedExtentN(config);
    assert config.batchSize == q * n;
    ImageDisjoint(config, q);
    RawDisjoint(config, q);
    ImageComplete(config, q);
    RawComplete(config, q);
  }

  /** `Sample` of include/model.h (its `label` is `labelIndex` here: `label` is a Dafny keyword). */
  datatype Sample = Sample(labelIndex: int, file: string)

  /** `DataLoadMeta`: a count and a fixed buffer of samples. */
  class DataLoadMeta {
    var numSamples: int
    const samples: array<Sample>

    constructor (capacity: nat, blank: Sample)
      ensures numSamples == 0 && samples.Length == capacity && fresh(samples)
    {
      numSamples := 0;
      samples := new Sample[capacity](_ => blank);
    }
  }

  /** Where the cursor is read from: position `iter`, or the start when it is at the end. */
  function Start(samples: seq<Sample>, iter: nat): nat {
    if iter == |samples| then 0 else iter
  }

  /** What `get_samples` writes: `count` copies of the sample under the cursor. */
  function AsWrittenFill(samples: seq<Sample>, iter: nat, count: nat): (r: seq<Sample>)
    requires iter <= |samples| && (count > 0 ==> |samples| > 0)
    ensures |r| == count
  {
    if count == 0 then [] else var s := samples[Start(samples, iter)]; seq(count, _ => s)
  }

  /** What a cursor over the sample list evidently should deliver: the next `count` samples, cyclically. */
  function IntendedFill(samples: seq<Sample>, iter: nat, count: nat): (r: seq<Sample>)
    requires iter <= |samples| && (count > 0 ==> |samples| > 0)
    ensures |r| == count
  {
    seq(count, i requires 0 <= i < count => samples[(Start(samples, iter) + i) % |samples|])
  }

  /** Where that cursor stops: one past the last sample delivered. */
  function IntendedNext(samples: seq<Sample>, iter: nat, count: nat): (r: nat)
    requires iter <= |samples| && (count > 0 ==> |samples| > 0)
    ensures r <= |samples|
  {
    if count == 0 then iter else (Start(samples, iter) + count - 1) % |samples| + 1
  }

  /** `DataLoader`: the sample list and a cursor into it, `|samples|` standing for `end()`. */
  class DataLoader {
    var samples: seq<Sample>
    var sampleIter: nat

    ghost predicate Valid()
      reads this
    {
      sampleIter <= |samples|
    }

    /**
     * `get_samples` as written: it records the count and fills that many
     * entries, resetting an exhausted cursor but never advancing it.
     */
    method GetSamples(numSamples: int, meta: DataLoadMeta) returns (ok: bool)
      requires Valid()
      requires numSamples <= meta.samples.Length
      requires numSamples > 0 ==> |samples| > 0
      modifies this, meta, meta.samples
      ensures ok
      ensures Valid() && samples == old(samples)
      ensures sampleIter == if numSamples > 0 then Start(samples, old(sampleIter)) else old(sampleIter)
      ensures meta.numSamples == numSamples
      ensures var count := if numSamples < 0 then 0 else numSamples;
        && meta.samples[..count] == AsWrittenFill(samples, old(sampleIter), count)
        && meta.samples[count..] == old(meta.samples[count..])
    {
      var count: nat := if numSamples < 0 then 0 else numSamples;
      meta.numSamples := numSamples;
      var i := 0;
      while i < numSamples
        invariant 0 <= i <= count
        invariant Valid() && samples == old(samples)
        invariant sampleIter == if i > 0 then Start(samples, old(sampleIter)) else old(sampleIter)
        invariant meta.numSamples == numSamples
        invariant meta.samples[..i] == AsWrittenFill(samples, old(sampleIter), i)
        invariant meta.samples[count..] == old(meta.samples[count..])
      {
        if sampleIter == |samples| {
          sampleIter := 0;
        }
        meta.samples[i] := samples[sampleIter];
        i := i + 1;
      }
      ok := true;
    }

    /** `get_samples` as evidently intended: the cursor advances past each sample it delivers. */
    method GetSamplesIntended(numSamples: int, meta: DataLoadMeta) returns (ok: bool)
      requires Valid()
      requires numSamples <= meta.samples.Length
      requires numSamples > 0 ==> |samples| > 0
      modifies this, meta, meta.samples
      ensures ok
      ensures Valid() && samples == old(samples)
      ensures var count := if numSamples < 0 then 0 else numSamples;
        && sampleIter == IntendedNext(samples, old(sampleIter), count)
        && meta.samples[..count] == IntendedFill(samples, old(sampleIter), count)
        && meta.samples[count..] == old(meta.samples[count..])
      ensures meta.numSamples == numSamples
    {
      var count: nat := if numSamples < 0 then 0 else numSamples;
      meta.numSamples := numSamples;
      var i := 0;
      while i < numSamples
        invariant 0 <= i <= count
        invariant Valid() && samples == old(samples)
        invariant sampleIter == IntendedNext(samples, old(sampleIter), i)
        invariant meta.numSamples == numSamples
        invariant meta.samples[..i] == IntendedFill(samples, old(sampleIter), i)
        invariant meta.samples[count..] == old(meta.samples[count..])
      {
        if sampleIter == |samples| {
          sampleIter := 0;
        }
        NextStep(samples, old(sampleIter), i);
        meta.samples[i] := samples[sampleIter];
        sampleIter := sampleIter + 1;
        i := i + 1;
      }
      ok := true;
    }
  }

  /** One more sample: the cursor read from is the next in cyclic order. */
  lemma NextStep(samples: seq<Sample>, iter: nat, i: nat)
    requires iter <= |samples| && |samples| > 0
    ensures Start(samples, IntendedNext(samples, iter, i)) == (Start(samples, iter) + i) % |samples|
    ensures IntendedNext(samples, iter, i + 1) == Start(samples, IntendedNext(samples, iter, i)) + 1
  {
    var n := |samples|;
    var st := Start(samples, iter);
    if i == 0 {
      ModUnique(st, 0, st, n);
    } else {
      ModSucc(st + i - 1, n);
    }
    ModUnique(st + i, (st + i) / n, (st + i) % n, n);
  }

  /** Euclidean division is unique. */
  lemma ModUnique(x: int, q: int, r: int, n: int)
    requires n > 0 && x == q * n + r && 0 <= r < n
    ensures x / n == q && x % n == r
  {
    assert x == (x / n) * n + x % n;
    assert (q - x / n) * n == x % n - r;
    SmallMultiple(q - x / n, n);
  }

  /** The remainder of a successor steps by one, wrapping to 0 at n. */
  lemma ModSucc(a: nat, n: int)
    requires n > 0
    ensures (a + 1) % n == if a % n == n - 1 then 0 else a % n + 1
  {
    var q := a / n;
    var r := a % n;
    assert a == q * n + r;
    if r == n - 1 {
      ModUnique(a + 1, q + 1, 0, n);
    } else {
      ModUnique(a + 1, q, r + 1, n);
    }
  }

  /** As written, every entry of a load is the same sample. */
  lemma AsWrittenRepeats(samples: seq<Sample>, iter: nat, count: nat, i: nat)
    requires iter <= |samples| && (count > 0 ==> |samples| > 0) && i < count
    ensures AsWrittenFill(samples, iter, count)[i] == AsWrittenFill(samples, iter, count)[0]
  {
  }

  /** Two distinct samples, a load of two: as written the second sample is never delivered. */
  lemma AsWrittenMissesSamples(a: Sample, b: Sample)
    requires a != b
    ensures AsWrittenFill([a, b], 0, 2) == [a, a]
    ensures IntendedFill([a, b], 0, 2) == [a, b]
  {
  }

  lemma ModAdd(a: nat, b: nat, n: int)
    requires n > 0
    ensures ((a % n) + b) % n == (a + b) % n
  {
    var q := a / n;
    assert a == q * n + a % n;
    var t := (a % n) + b;
    assert t == (t / n) * n + t % n;
    ModUnique(a + b, q + t / n, t % n, n);
  }

  /** The second of two consecutive loads continues where the first stopped. */
  lemma IntendedContinues(samples: seq<Sample>, iter: nat, count: nat, more: nat, j: nat)
    requires iter <= |samples| && |samples| > 0 && j < more
    ensures IntendedFill(samples, IntendedNext(samples, iter, count), more)[j]
            == IntendedFill(samples, iter, count + more)[count + j]
  {
    var n := |samples|;
    var st := Start(samples, iter);
    NextStep(samples, iter, count);
    ModAdd(st + count, j, n);
  }

  /** As intended, two consecutive loads deliver what one load of both sizes would. */
  lemma IntendedConsecutive(samples: seq<Sample>, iter: nat, count: nat, more: nat)
    requires iter <= |samples| && |samples| > 0
    ensures IntendedFill(samples, iter, count) + IntendedFill(samples, IntendedNext(samples, iter, count), more)
            == IntendedFill(samples, iter, count + more)
  {
    var first := IntendedFill(samples, iter, count);
    var second := IntendedFill(samples, IntendedNext(samples, iter, count), more);
    var whole := IntendedFill(samples, iter, count + more);
    forall j | 0 <= j < count
      ensures first[j] == whole[j]
    {
    }
    forall j | 0 <= j < more
      ensures second[j] == whole[count + j]
    {
      IntendedContinues(samples, iter, count, more, j);
    }
    assert first + second == whole;
  }

  /** As intended, a load at least as long as the list delivers every sample. */
  lemma IntendedCoversAll(samples: seq<Sample>, iter: nat, count: nat, k: nat)
    requires iter <= |samples| && |samples| > 0 && count >= |samples| && k < |samples|
    ensures samples[k] in IntendedFill(samples, iter, count)
  {
    var n := |samples|;
    var st := Start(samples, iter);
    var i := if st <= k then k - st else k + n - st;
    if st <= k {
      ModUnique(st + i, 0, k, n);
    } else {
      ModUnique(st + i, 1, k, n);
    }
    assert IntendedFill(samples, iter, count)[i] == samples[k];
  }
}
