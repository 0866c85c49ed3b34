/** The NMT driver in nmt/nmt.cc: its command-line settings, handle collection and training loop. */
module Nmt {
  import opened ArgScan
  import opened CString
  import opened Calls

  /** The five settings `parse_input_args` may change. */
  datatype NmtArgs = NmtArgs(batchSize: int, numLayers: int, seqLength: int, hiddenSize: int, embedSize: int)

  /** The values `top_level_task` starts from. */
  const Defaults := NmtArgs(256, 2, 40, 1024, 1024)

  /** Further fixed settings of `top_level_task`. */
  const NumWorkers := 2
  const NumParts := 2
  const NumIterations := 10

  /** The settings, one per flag. */
  datatype Setting = Batch | Layers | SeqLength | Hidden | Embed

  /** The flag that sets each setting. */
  function Name(s: Setting): string {
    match s
    case Batch => "-b"
    case Layers => "-l"
    case SeqLength => "-s"
    case Hidden => "-h"
    case Embed => "-e"
  }

  const Flags: set<string> := {"-b", "-l", "-s", "-h", "-e"}

  function Field(a: NmtArgs, s: Setting): int {
    match s
    case Batch => a.batchSize
    case Layers => a.numLayers
    case SeqLength => a.seqLength
    case Hidden => a.hiddenSize
    case Embed => a.embedSize
  }

  /** A setting after the scan: `atoi` of its flag's last value token, or the value it had before. */
  function Value(last: map<string, string>, s: Setting, before: int): int {
    if Name(s) in last then Atoi(last[Name(s)]) else before
  }

  /** The settings after the scan, given the last value token of each flag. */
  function Apply(last: map<string, string>, cur: NmtArgs): NmtArgs {
    NmtArgs(
      Value(last, Batch, cur.batchSize), Value(last, Layers, cur.numLayers),
      Value(last, SeqLength, cur.seqLength), Value(last, Hidden, cur.hiddenSize),
      Value(last, Embed, cur.embedSize))
  }

  /** Every setting has a recognised flag, and each flag sets its own field and no other. */
  lemma ApplyField(last: map<string, string>, cur: NmtArgs, s: Setting)
    ensures Name(s) in Flags
    ensures Field(Apply(last, cur), s) == Value(last, s, Field(cur, s))
  {
  }

  function Parsed(argv: seq<string>, cur: NmtArgs): NmtArgs {
    Apply(Scan(argv, Flags), cur)
  }

  /**
   * nmt.cc's own `parse_input_args`, with its own flag table (it mirrors the
   * one in cnn.cc): the reference parameters in, their new values out.
   */
  method ParseInputArgs(argv: seq<string>, cur: NmtArgs) returns (args: NmtArgs)
    requires ValuesPresent(argv, Flags, 1)
    ensures args == Parsed(argv, cur)
  {
    var last := ArgScan.ScanArgs(argv, Flags);
    args := Apply(last, cur);
  }

  /** Without any recognised flag after argv[0], every setting keeps its value. */
  lemma DefaultsWithoutFlags(argv: seq<string>, cur: NmtArgs)
    requires forall k :: 1 <= k < |argv| ==> argv[k] !in Flags
    ensures Parsed(argv, cur) == cur
  {
    NoFlagsNothingSet(argv, Flags, 1, map[]);
  }

  /** A setting is `atoi` of the token after the last scanned occurrence of its flag. */
  lemma LastOccurrenceWins(argv: seq<string>, cur: NmtArgs, s: Setting, j: nat)
    requires ValuesPresent(argv, Flags, 1)
    requires LastAt(argv, Heads(argv, Flags, 1), j, Name(s))
    ensures Heads(argv, Flags, 1)[j] + 1 < |argv|
    ensures Field(Parsed(argv, cur), s) == Atoi(argv[Heads(argv, Flags, 1)[j] + 1])
  {
    ApplyField(Scan(argv, Flags), cur, s);
    ScanLastHead(argv, Flags, Name(s), j);
  }

  /** A setting whose flag the scan never reaches keeps its value. */
  lemma UnscannedFlagKeeps(argv: seq<string>, cur: NmtArgs, s: Setting)
    requires ValuesPresent(argv, Flags, 1)
    requires !Occurs(argv, Heads(argv, Flags, 1), Name(s))
    ensures Field(Parsed(argv, cur), s) == Field(cur, s)
  {
    ApplyField(Scan(argv, Flags), cur, s);
    ScanFromKeys(argv, Flags, 1, map[], Name(s));
  }

  /** One handle task per worker, each launched with mapper tag `idx` and waited for before the next. */
  function HandleCalls(numWorkers: nat): (r: seq<Call>)
    ensures |r| == 2 * numWorkers
  {
    if numWorkers == 0 then [] else HandleCalls(numWorkers - 1) + [LaunchHandleInit(numWorkers - 1), WaitHandle(numWorkers - 1)]
  }

  /** Worker k's launch is at 2k and its wait right after it, so no two handle tasks overlap. */
  lemma {:induction false} HandleOrder(numWorkers: nat, k: nat)
    requires k < numWorkers
    ensures HandleCalls(numWorkers)[2 * k..2 * k + 2] == [LaunchHandleInit(k), WaitHandle(k)]
  {
    if k < numWorkers - 1 {
      HandleOrder(numWorkers - 1, k);
      assert HandleCalls(numWorkers)[..2 * (numWorkers - 1)] == HandleCalls(numWorkers - 1);
    }
  }

  /**
   * The handle loop: the result of worker idx's task is stored at
   * `dnn_handlers[idx]` (the runtime's results are given by worker).
   */
  method InitHandles<H>(handlers: array<H>, results: seq<H>) returns (calls: seq<Call>)
    requires |results| <= handlers.Length
    modifies handlers
    ensures calls == HandleCalls(|results|)
    ensures handlers[..|results|] == results
    ensures handlers[|results|..] == old(handlers[|results|..])
  {
    calls := [];
    var idx := 0;
    while idx < |results|
      invariant 0 <= idx <= |results|
      invariant calls == HandleCalls(idx)
      invariant handlers[..idx] == results[..idx]
      invariant handlers[|results|..] == old(handlers[|results|..])
    {
      calls := calls + [LaunchHandleInit(idx), WaitHandle(idx)];
      handlers[idx] := results[idx];
      idx := idx + 1;
    }
  }

  /** The calls of one training iteration: there is no update phase. */
  const Iteration: seq<Call> := [Forward, Backward]

  /** `model.init()`, then `num_iterations` times forward and backward. */
  function TrainingCalls(numIterations: nat): seq<Call> {
    [InitLayers] + Repeat(Iteration, numIterations)
  }

  method RunTraining(numIterations: nat) returns (calls: seq<Call>)
    ensures calls == TrainingCalls(numIterations)
  {
    calls := [InitLayers];
    var i := 0;
    while i < numIterations
      invariant 0 <= i <= numIterations
      invariant calls == [InitLayers] + Repeat(Iteration, i)
    {
      calls := calls + [Forward];
      calls := calls + [Backward];
      i := i + 1;
    }
  }

  /** The model is initialised once, and iteration k runs forward then backward. */
  lemma TrainingOrder(numIterations: nat, k: nat)
    requires k < numIterations
    ensures |TrainingCalls(numIterations)| == 1 + 2 * numIterations
    ensures Count(TrainingCalls(numIterations), InitLayers) == 1
    ensures TrainingCalls(numIterations)[1 + 2 * k..3 + 2 * k] == [Forward, Backward]
  {
    var t := TrainingCalls(numIterations);
    RepeatBlock(Iteration, numIterations, k);
    CountRepeat(Iteration, numIterations, InitLayers);
    assert t[1 + 2 * k..3 + 2 * k] == Repeat(Iteration, numIterations)[2 * k..2 * (k + 1)];
    assert multiset(t) == multiset([InitLayers]) + multiset(Repeat(Iteration, numIterations));
  }

  /** Forward and backward run once per iteration; parameters are never updated. */
  lemma PhaseCounts(numIterations: nat)
    ensures Count(TrainingCalls(numIterations), Forward) == numIterations
    ensures Count(TrainingCalls(numIterations), Backward) == numIterations
    ensures Count(TrainingCalls(numIterations), Update) == 0
  {
    CountRepeat(Iteration, numIterations, Forward);
    CountRepeat(Iteration, numIterations, Backward);
    CountRepeat(Iteration, numIterations, Update);
    assert multiset(TrainingCalls(numIterations)) == multiset([InitLayers]) + multiset(Repeat(Iteration, numIterations));
  }

  /**
   * `top_level_task`: settings from the command line, one handle per worker,
   * then the calls it issues. Building the `RnnModel` happens in code that is
   * not part of this model and appears here only as `AddLayers`.
   */
  method TopLevelTask<H>(argv: seq<string>, handleResults: seq<H>, handlers: array<H>)
    returns (args: NmtArgs, calls: seq<Call>)
    requires ValuesPresent(argv, Flags, 1)
    requires |handleResults| == NumWorkers <= handlers.Length
    modifies handlers
    ensures args == Parsed(argv, Defaults)
    ensures handlers[..NumWorkers] == handleResults
    ensures handlers[NumWorkers..] == old(handlers[NumWorkers..])
    ensures calls == [AddLayers] + HandleCalls(NumWorkers) + TrainingCalls(NumIterations)
                     + [ExecutionFence, TimingMeasurement]
  {
    args := ParseInputArgs(argv, Defaults);
    calls := [AddLayers];
    var handleCalls := InitHandles(handlers, handleResults);
    calls := calls + handleCalls;
    var training := RunTraining(NumIterations);
    calls := calls + training + [ExecutionFence, TimingMeasurement];
  }
}
