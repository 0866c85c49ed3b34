/**
 * The command-line scan shared by `parse_input_args` in cnn.cc and nmt/nmt.cc
 * and by the `NetConfig` constructor: tokens from argv[1] on are read in turn;
 * a recognised flag takes the next token as its value (that token is then
 * skipped), every other token is ignored, and a later occurrence of a flag
 * overrides an earlier one.
 */
module ArgScan {

  /**
   * The positions, from `i` on, that the scan reads as a possible flag: after
   * a recognised flag it moves on by two tokens, after any other token by one.
   */
  function Heads(argv: seq<string>, flags: set<string>, i: nat): (h: seq<nat>)
    ensures forall j :: 0 <= j < |h| ==> i <= h[j] < |argv|
    ensures forall a, b :: 0 <= a < b < |h| ==> h[a] < h[b]
    ensures |argv| > i <==> |h| > 0
    decreases |argv| - i
  {
    if i >= |argv| then []
    else [i] + Heads(argv, flags, if argv[i] in flags then i + 2 else i + 1)
  }

  /** Every recognised flag the scan reaches is followed by a value token. */
  predicate ValuesPresent(argv: seq<string>, flags: set<string>, i: nat)
    decreases |argv| - i
  {
    i >= |argv| ||
    if argv[i] in flags then i + 1 < |argv| && ValuesPresent(argv, flags, i + 2)
    else ValuesPresent(argv, flags, i + 1)
  }

  /** The last value token seen for each flag, when the scan starts at `i` having seen `last`. */
  function ScanFrom(argv: seq<string>, flags: set<string>, i: nat, last: map<string, string>): map<string, string>
    decreases |argv| - i
  {
    if i >= |argv| then last
    else if argv[i] in flags then
      if i + 1 < |argv| then ScanFrom(argv, flags, i + 2, last[argv[i] := argv[i + 1]]) else last
    else ScanFrom(argv, flags, i + 1, last)
  }

  /** What the scan of a whole command line yields; argv[0], the program name, is skipped. */
  function Scan(argv: seq<string>, flags: set<string>): map<string, string> {
    ScanFrom(argv, flags, 1, map[])
  }

  /**
   * The loop of the scanners: `for (i = 1; i < argc; i++)`, and on a
   * recognised flag `value = argv[++i]`. Dereferencing argv[argc] is undefined
   * in C, so a flag must not be the last token.
   */
  method ScanArgs(argv: seq<string>, flags: set<string>) returns (last: map<string, string>)
    requires ValuesPresent(argv, flags, 1)
    ensures last == Scan(argv, flags)
  {
    last := map[];
    var i := 1;
    while i < |argv|
      invariant 1 <= i
      invariant ValuesPresent(argv, flags, i)
      invariant ScanFrom(argv, flags, i, last) == Scan(argv, flags)
      decreases |argv| - i
    {
      if argv[i] in flags {
        i := i + 1;
        last := last[argv[i - 1] := argv[i]];
      }
      i := i + 1;
    }
  }

  /** The token at the `j`-th scanned position is `f`. */
  ghost predicate HeadIs(argv: seq<string>, h: seq<nat>, j: int, f: string) {
    0 <= j < |h| && h[j] < |argv| && argv[h[j]] == f
  }

  ghost predicate Occurs(argv: seq<string>, h: seq<nat>, f: string) {
    exists j :: HeadIs(argv, h, j, f)
  }

  /** The `j`-th scanned position holds `f` and no later scanned position does. */
  ghost predicate LastAt(argv: seq<string>, h: seq<nat>, j: int, f: string) {
    HeadIs(argv, h, j, f) && forall j' :: j < j' < |h| ==> !HeadIs(argv, h, j', f)
  }

  lemma {:induction false} HeadsStep(argv: seq<string>, flags: set<string>, i: nat, j: nat)
    requires j + 1 < |Heads(argv, flags, i)|
    ensures var h := Heads(argv, flags, i);
      h[j + 1] == h[j] + (if argv[h[j]] in flags then 2 else 1)
    decreases |argv| - i
  {
    var next := if argv[i] in flags then i + 2 else i + 1;
    if j > 0 {
      HeadsStep(argv, flags, next, j - 1);
    }
  }

  /** A value token consumed by a flag is never itself read as a flag. */
  lemma ValueNeverScanned(argv: seq<string>, flags: set<string>, i: nat, j: nat)
    requires j < |Heads(argv, flags, i)|
    requires argv[Heads(argv, flags, i)[j]] in flags
    ensures Heads(argv, flags, i)[j] + 1 !in Heads(argv, flags, i)
  {
    var h := Heads(argv, flags, i);
    if j + 1 < |h| {
      HeadsStep(argv, flags, i, j);
      assert forall j' :: j < j' < |h| ==> h[j'] >= h[j + 1];
    }
  }

  /** Occurrences at the scanned positions from `i`, split into the first position and the rest. */
  lemma OccursCons(argv: seq<string>, flags: set<string>, i: nat, f: string)
    requires i < |argv|
    ensures var h := Heads(argv, flags, i);
      var h' := Heads(argv, flags, if argv[i] in flags then i + 2 else i + 1);
      && h == [i] + h'
      && (Occurs(argv, h, f) <==> argv[i] == f || Occurs(argv, h', f))
      && (forall j :: 0 < j < |h| ==> (LastAt(argv, h, j, f) <==> LastAt(argv, h', j - 1, f)))
      && (LastAt(argv, h, 0, f) <==> argv[i] == f && !Occurs(argv, h', f))
  {
    var h := Heads(argv, flags, i);
    var h' := Heads(argv, flags, if argv[i] in flags then i + 2 else i + 1);
    assert h == [i] + h';
    forall j | 0 < j < |h| ensures HeadIs(argv, h, j, f) <==> HeadIs(argv, h', j - 1, f) {
      assert h[j] == h'[j - 1];
    }
    forall j | 0 < j < |h| ensures LastAt(argv, h, j, f) <==> LastAt(argv, h', j - 1, f) {
      if LastAt(argv, h', j - 1, f) {
        forall j' | j < j' < |h| ensures !HeadIs(argv, h, j', f) {
          assert !HeadIs(argv, h', j' - 1, f);
        }
      }
      if LastAt(argv, h, j, f) {
        forall j' | j - 1 < j' < |h'| ensures !HeadIs(argv, h', j', f) {
          assert !HeadIs(argv, h, j' + 1, f);
        }
      }
    }
    if Occurs(argv, h', f) {
      var j :| HeadIs(argv, h', j, f);
      assert HeadIs(argv, h, j + 1, f);
    }
    if Occurs(argv, h, f) && argv[i] != f {
      var j :| HeadIs(argv, h, j, f);
      assert HeadIs(argv, h', j - 1, f);
    }
    if LastAt(argv, h, 0, f) {
      forall j' | 0 <= j' < |h'| ensures !HeadIs(argv, h', j', f) {
        assert !HeadIs(argv, h, j' + 1, f);
      }
    }
  }

  /** A flag is set after the scan exactly when it was set before or is scanned at least once. */
  lemma {:induction false} ScanFromKeys(argv: seq<string>, flags: set<string>, i: nat,
                                        last: map<string, string>, f: string)
    requires ValuesPresent(argv, flags, i) && f in flags
    ensures var r, h := ScanFrom(argv, flags, i, last), Heads(argv, flags, i);
      && (f in r <==> f in last || Occurs(argv, h, f))
      && (!Occurs(argv, h, f) && f in last ==> r[f] == last[f])
    decreases |argv| - i
  {
    if i < |argv| {
      var next := if argv[i] in flags then i + 2 else i + 1;
      var last' := if argv[i] in flags then last[argv[i] := argv[i + 1]] else last;
      assert ScanFrom(argv, flags, i, last) == ScanFrom(argv, flags, next, last');
      OccursCons(argv, flags, i, f);
      ScanFromKeys(argv, flags, next, last', f);
    }
  }

  /** A recognised flag holds the value token that follows its last scanned occurrence. */
  lemma {:induction false} ScanFromLastHead(argv: seq<string>, flags: set<string>, i: nat,
                                            last: map<string, string>, f: string, j: nat)
    requires ValuesPresent(argv, flags, i) && f in flags
    requires LastAt(argv, Heads(argv, flags, i), j, f)
    ensures var r, k := ScanFrom(argv, flags, i, last), Heads(argv, flags, i)[j];
      k + 1 < |argv| && f in r && r[f] == argv[k + 1]
    decreases |argv| - i
  {
    var next := if argv[i] in flags then i + 2 else i + 1;
    var last' := if argv[i] in flags then last[argv[i] := argv[i + 1]] else last;
    assert ScanFrom(argv, flags, i, last) == ScanFrom(argv, flags, next, last');
    OccursCons(argv, flags, i, f);
    if j == 0 {
      ScanFromKeys(argv, flags, next, last', f);
    } else {
      ScanFromLastHead(argv, flags, next, last', f, j - 1);
    }
  }

  /** For a whole command line: a flag ends with the word after its last inspected occurrence. */
  lemma ScanLastHead(argv: seq<string>, flags: set<string>, f: string, j: nat)
    requires ValuesPresent(argv, flags, 1) && f in flags
    requires LastAt(argv, Heads(argv, flags, 1), j, f)
    ensures var k := Heads(argv, flags, 1)[j];
      k + 1 < |argv| && f in Scan(argv, flags) && Scan(argv, flags)[f] == argv[k + 1]
  {
    ScanFromLastHead(argv, flags, 1, map[], f, j);
  }

  /** With no recognised flag among argv[1..], nothing is set. */
  lemma {:induction false} NoFlagsNothingSet(argv: seq<string>, flags: set<string>, i: nat, last: map<string, string>)
    requires forall k :: i <= k < |argv| ==> argv[k] !in flags
    ensures ScanFrom(argv, flags, i, last) == last
    decreases |argv| - i
  {
    if i < |argv| {
      NoFlagsNothingSet(argv, flags, i + 1, last);
    }
  }

  /** Only recognised flags are ever set. */
  lemma {:induction false} OnlyFlagsSet(argv: seq<string>, flags: set<string>, i: nat, last: map<string, string>)
    ensures ScanFrom(argv, flags, i, last).Keys <= last.Keys + flags
    decreases |argv| - i
  {
    if i < |argv| {
      if argv[i] in flags {
        if i + 1 < |argv| {
          OnlyFlagsSet(argv, flags, i + 2, last[argv[i] := argv[i + 1]]);
        }
      } else {
        OnlyFlagsSet(argv, flags, i + 1, last);
      }
    }
  }
}
