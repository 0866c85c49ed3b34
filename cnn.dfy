/** The CNN driver in cnn.cc: its command-line settings, handle collection and training loop. */
module Cnn {
  import opened ArgScan
  import opened CString
  import opened Calls

  /** The eight settings `parse_input_args` may change. */
  datatype CnnArgs = CnnArgs(
    numParH: int, numParW: int, numParN: int,
    batchSize: int, fcNumParC: int, fcNumParN: int,
    numLoaders: int, numNodes: int)

  /** The values `top_level_task` starts from. */
  const Defaults := CnnArgs(1, 1, 4, 256, 1, 1, 4, 1)

  /** Further fixed settings of `top_level_task`. */
  const Height := 224
  const Width := 224
  const NumIterations := 10

  /** The settings, one per flag. */
  datatype Setting = ParH | ParW | ParN | FcParC | FcParN | Batch | Loaders | Nodes

  /** The flag that sets each setting. */
  function Name(s: Setting): string {
    match s
    case ParH => "-ph"
    case ParW => "-pw"
    case ParN => "-pn"
    case FcParC => "-pfc"
    case FcParN => "-pfn"
    case Batch => "-b"
    case Loaders => "-num_loaders"
    case Nodes => "-num_nodes"
  }

  const Flags: set<string> := {"-ph", "-pw", "-pn", "-pfc", "-pfn", "-b", "-num_loaders", "-num_nodes"}

  function Field(a: CnnArgs, s: Setting): int {
    match s
    case ParH => a.numParH
    case ParW => a.numParW
    case ParN => a.numParN
    case FcParC => a.fcNumParC
    case FcParN => a.fcNumParN
    case Batch => a.batchSize
    case Loaders => a.numLoaders
    case Nodes => a.numNodes
  }

  /** A setting after the scan: `atoi` of its flag's last value token, or the value it had before. */
  function Value(last: map<string, string>, s: Setting, before: int): int {
    if Name(s) in last then Atoi(last[Name(s)]) else before
  }

  /** The settings after the scan, given the last value token of each flag. */
  function Apply(last: map<string, string>, cur: CnnArgs): CnnArgs {
    CnnArgs(
      Value(last, ParH, cur.numParH), Value(last, ParW, cur.numParW),
      Value(last, ParN, cur.numParN), Value(last, Batch, cur.batchSize),
      Value(last, FcParC, cur.fcNumParC), Value(last, FcParN, cur.fcNumParN),
      Value(last, Loaders, cur.numLoaders), Value(last, Nodes, cur.numNodes))
  }

  /** Every setting has a recognised flag, and each flag sets its own field and no other. */
  lemma ApplyField(last: map<string, string>, cur: CnnArgs, s: Setting)
    ensures Name(s) in Flags
    ensures Field(Apply(last, cur), s) == Value(last, s, Field(cur, s))
  {
  }

  function Parsed(argv: seq<string>, cur: CnnArgs): CnnArgs {
    Apply(Scan(argv, Flags), cur)
  }

  /** `parse_input_args`: the reference parameters in, their new values out. */
  method ParseInputArgs(argv: seq<string>, cur: CnnArgs) returns (args: CnnArgs)
    requires ValuesPresent(argv, Flags, 1)
    ensures args == Parsed(argv, cur)
  {
    var last := ArgScan.ScanArgs(argv, Flags);
    args := Apply(last, cur);
  }

  /** Without any recognised flag after argv[0], every setting keeps its value. */
  lemma DefaultsWithoutFlags(argv: seq<string>, cur: CnnArgs)
    requires forall k :: 1 <= k < |argv| ==> argv[k] !in Flags
    ensures Parsed(argv, cur) == cur
  {
    NoFlagsNothingSet(argv, Flags, 1, map[]);
  }

  /** A setting is `atoi` of the token after the last scanned occurrence of its flag. */
  lemma LastOccurrenceWins(argv: seq<string>, cur: CnnArgs, s: Setting, j: nat)
    requires ValuesPresent(argv, Flags, 1)
    requires LastAt(argv, Heads(argv, Flags, 1), j, Name(s))
    ensures Heads(argv, Flags, 1)[j] + 1 < |argv|
    ensures Field(Parsed(argv, cur), s) == Atoi(argv[Heads(argv, Flags, 1)[j] + 1])
  {
    ApplyField(Scan(argv, Flags), cur, s);
    ScanLastHead(argv, Flags, Name(s), j);
  }

  /** A setting whose flag the scan never reaches keeps its value. */
  lemma UnscannedFlagKeeps(argv: seq<string>, cur: CnnArgs, s: Setting)
    requires ValuesPresent(argv, Flags, 1)
    requires !Occurs(argv, Heads(argv, Flags, 1), Name(s))
    ensures Field(Parsed(argv, cur), s) == Field(cur, s)
  {
    ApplyField(Scan(argv, Flags), cur, s);
    ScanFromKeys(argv, Flags, 1, map[], Name(s));
  }

  /** The calls of one training iteration. */
  const Iteration: seq<Call> := [Prefetch, Forward, Backward, Update]

  /** `init_layers`, then `num_iterations` times prefetch, forward, backward, update. */
  function TrainingCalls(numIterations: nat): seq<Call> {
    [InitLayers] + Repeat(Iteration, numIterations)
  }

  method RunTraining(numIterations: nat) returns (calls: seq<Call>)
    ensures calls == TrainingCalls(numIterations)
  {
    calls := [InitLayers];
    var i := 0;
    while i < numIterations
      invariant 0 <= i <= numIterations
      invariant calls == [InitLayers] + Repeat(Iteration, i)
    {
      calls := calls + [Prefetch];
      calls := calls + [Forward];
      calls := calls + [Backward];
      calls := calls + [Update];
      i := i + 1;
    }
  }

  /** Layers are initialised once, and iteration k issues its four phases in order. */
  lemma TrainingOrder(numIterations: nat, k: nat)
    requires k < numIterations
    ensures |TrainingCalls(numIterations)| == 1 + 4 * numIterations
    ensures Count(TrainingCalls(numIterations), InitLayers) == 1
    ensures TrainingCalls(numIterations)[1 + 4 * k..5 + 4 * k] == [Prefetch, Forward, Backward, Update]
  {
    var t := TrainingCalls(numIterations);
    RepeatBlock(Iteration, numIterations, k);
    CountRepeat(Iteration, numIterations, InitLayers);
    assert t[1 + 4 * k..5 + 4 * k] == Repeat(Iteration, numIterations)[4 * k..4 * (k + 1)];
    assert multiset(t) == multiset([InitLayers]) + multiset(Repeat(Iteration, numIterations));
  }

  /** Each phase is issued once per iteration. */
  lemma PhaseCounts(numIterations: nat)
    ensures Count(TrainingCalls(numIterations), Forward) == numIterations
    ensures Count(TrainingCalls(numIterations), Update) == numIterations
  {
    CountRepeat(Iteration, numIterations, Forward);
    CountRepeat(Iteration, numIterations, Update);
    assert multiset(TrainingCalls(numIterations)) == multiset([InitLayers]) + multiset(Repeat(Iteration, numIterations));
  }

  /**
   * The handle loop: after `wait_all_results`, the result for the k-th point of
   * the worker grid, in iteration order, is stored at `cnn_handlers[k]`.
   */
  method StoreHandles<H>(handlers: array<H>, results: seq<H>)
    requires |results| <= handlers.Length
    modifies handlers
    ensures handlers[..|results|] == results
    ensures handlers[|results|..] == old(handlers[|results|..])
  {
    var idx := 0;
    while idx < |results|
      invariant 0 <= idx <= |results|
      invariant handlers[..idx] == results[..idx]
      invariant handlers[|results|..] == old(handlers[|results|..])
    {
      handlers[idx] := results[idx];
      idx := idx + 1;
    }
  }

  /**
   * `top_level_task`: settings from the command line, one handle per grid cell
   * (the runtime's results are given in iteration order), then the calls it
   * issues. Building the `CnnModel` and its layers happens in code that is not
   * part of this model and appears here only as `AddLayers`.
   */
  method TopLevelTask<H>(argv: seq<string>, handleResults: seq<H>, handlers: array<H>)
    returns (args: CnnArgs, calls: seq<Call>)
    requires ValuesPresent(argv, Flags, 1)
    requires |handleResults| <= handlers.Length
    modifies handlers
    ensures args == Parsed(argv, Defaults)
    ensures handlers[..|handleResults|] == handleResults
    ensures handlers[|handleResults|..] == old(handlers[|handleResults|..])
    ensures calls == [LaunchHandleInits(|handleResults|), WaitAllHandles, AddLayers]
                     + TrainingCalls(NumIterations) + [ExecutionFence, TimingMeasurement]
  {
    args := ParseInputArgs(argv, Defaults);
    calls := [LaunchHandleInits(|handleResults|), WaitAllHandles];
    StoreHandles(handlers, handleResults);
    calls := calls + [AddLayers];
    assert calls == [LaunchHandleInits(|handleResults|), WaitAllHandles, AddLayers];
    var training := RunTraining(NumIterations);
    calls := calls + training + [ExecutionFence, TimingMeasurement];
  }
}
