/**
 * The model-level calls that the training drivers (cnn.cc, nmt/nmt.cc and the
 * Keras front end) issue, recorded in order; what each call does inside the
 * runtime is not modelled.
 */
module Calls {

  datatype Call =
    | LaunchHandleInits(cells: nat)  // one index launch creating a handle per grid cell
    | WaitAllHandles                 // block until every handle is ready
    | LaunchHandleInit(worker: nat)  // one task creating the handle of one worker
    | WaitHandle(worker: nat)        // block until that worker's handle is ready
    | AddLayers
    | InitLayers
    | Prefetch
    | Forward
    | Backward
    | Update
    | ZeroGradients
    | ResetMetrics
    | LoaderReset(loader: nat)
    | LoaderNextBatch(loader: nat)
    | BeginTrace(traceId: int)
    | EndTrace(traceId: int)
    | ExecutionFence
    | TimingMeasurement

  /** `block` issued `n` times in a row. */
  function Repeat(block: seq<Call>, n: nat): seq<Call> {
    if n == 0 then [] else Repeat(block, n - 1) + block
  }

  /** `n` repetitions are n times as long as the block. */
  lemma {:induction false} RepeatLength(block: seq<Call>, n: nat)
    ensures |Repeat(block, n)| == n * |block|
  {
    if n > 0 {
      RepeatLength(block, n - 1);
      MulSucc(n - 1, |block|);
    }
  }

  /** How many times `c` is issued. */
  function Count(calls: seq<Call>, c: Call): nat {
    multiset(calls)[c]
  }

  /** Counts add up over a concatenation. */
  lemma CountConcat(a: seq<Call>, b: seq<Call>, c: Call)
    ensures Count(a + b, c) == Count(a, c) + Count(b, c)
  {
    assert multiset(a + b) == multiset(a) + multiset(b);
  }

  /** The `k`-th repetition occupies positions k*|block| up to (k+1)*|block|. */
  lemma {:induction false} RepeatBlock(block: seq<Call>, n: nat, k: nat)
    requires k < n
    ensures |Repeat(block, n)| == n * |block|
    ensures (k + 1) * |block| <= n * |block|
    ensures Repeat(block, n)[k * |block|..(k + 1) * |block|] == block
  {
    var r := Repeat(block, n);
    RepeatLength(block, n - 1);
    RepeatLength(block, n);
    assert r == Repeat(block, n - 1) + block;
    assert (n - 1) * |block| + |block| == n * |block|;
    if k < n - 1 {
      RepeatBlock(block, n - 1, k);
      assert (k + 1) * |block| <= (n - 1) * |block| by {
        assert k + 1 <= n - 1;
        MulMonotone(k + 1, n - 1, |block|);
      }
      assert r[k * |block|..(k + 1) * |block|] == Repeat(block, n - 1)[k * |block|..(k + 1) * |block|];
    } else {
      assert k * |block| == (n - 1) * |block|;
    }
  }

  lemma MulMonotone(a: nat, b: nat, c: nat)
    requires a <= b
    ensures a * c <= b * c
  {
  }

  lemma MulSucc(a: nat, b: nat)
    ensures a * b + b == (a + 1) * b
  {
  }

  /** Each repetition contributes the block's own count. */
  lemma {:induction false} CountRepeat(block: seq<Call>, n: nat, c: Call)
    ensures Count(Repeat(block, n), c) == n * Count(block, c)
  {
    if n > 0 {
      CountRepeat(block, n - 1, c);
      var k := Count(block, c);
      assert multiset(Repeat(block, n)) == multiset(Repeat(block, n - 1)) + multiset(block);
      assert Count(Repeat(block, n), c) == (n - 1) * k + k;
      MulSucc(n - 1, k);
    }
  }
}
