/** The configuration layer of the `cat` subcommand: it classifies locations
    as ZMQ endpoints or tar archives, picks the source and the sink, and
    builds the ordered list of stages the records flow through. The stages,
    sources and sinks themselves are descriptors: what they do when the
    pipeline runs is not part of this model. */
module Cat {
  import opened Wrappers
  import opened GoStrings

  // ---------------------------------------------------------------------
  // Go's 64-bit `int`

  /** The values of Go's `int` on a 64-bit platform. */
  newtype GoInt = x: int | -0x8000_0000_0000_0000 <= x < 0x8000_0000_0000_0000

  const MinInt: GoInt := -0x8000_0000_0000_0000
  const MaxInt: GoInt := 0x7fff_ffff_ffff_ffff

  /** Two's-complement wrap-around of an integer into `GoInt`, as Go's
      integer addition does on overflow. */
  function Wrap(x: int): (r: GoInt)
    ensures (x - r as int) % 0x1_0000_0000_0000_0000 == 0
    ensures MinInt as int <= x <= MaxInt as int ==> r as int == x
  {
    ((x + 0x8000_0000_0000_0000) % 0x1_0000_0000_0000_0000 - 0x8000_0000_0000_0000) as GoInt
  }

  // ---------------------------------------------------------------------
  // Endpoint classification: the pattern `^z[a-z]*:`

  predicate IsLower(c: char) {
    'a' <= c <= 'z'
  }

  /** From index `i` on, `s` holds only lower-case letters up to index `k`,
      which holds a colon. */
  ghost predicate ColonAfterLowers(s: string, i: nat, k: nat) {
    i <= k < |s| && s[k] == ':' && forall j :: i <= j < k ==> IsLower(s[j])
  }

  /** The declarative reading of the pattern: the location starts with `z`,
      then zero or more lower-case ASCII letters, then a colon; whatever
      follows the colon is not looked at. */
  ghost predicate MatchesZurl(s: string) {
    |s| > 0 && s[0] == 'z' && exists k :: ColonAfterLowers(s, 1, k)
  }

  /** Scans lower-case letters from index `i` and reports whether the first
      character that is not one is a colon. */
  function ScanLowersToColon(s: string, i: nat): (r: bool)
    requires i <= |s|
    ensures r <==> exists k :: ColonAfterLowers(s, i, k)
    decreases |s| - i
  {
    if i == |s| then false
    else if s[i] == ':' then assert ColonAfterLowers(s, i, i); true
    else if IsLower(s[i]) then
      LowerStep(s, i, i + 1);
      ScanLowersToColon(s, i + 1)
    else
      assert forall k: nat :: !ColonAfterLowers(s, i, k) by {
        forall k: nat ensures !ColonAfterLowers(s, i, k) {
          if i < k < |s| { assert !IsLower(s[i]); }
        }
      }
      false
  }

  /** A lower-case letter at `i` neither ends the scan nor changes where
      the colon is. */
  lemma LowerStep(s: string, i: nat, next: nat)
    requires i < |s| && IsLower(s[i]) && next == i + 1
    ensures (exists k :: ColonAfterLowers(s, i, k)) <==> (exists k :: ColonAfterLowers(s, next, k))
  {
    if k :| ColonAfterLowers(s, i, k) {
      assert k != i;
      assert ColonAfterLowers(s, next, k);
    }
    if k :| ColonAfterLowers(s, next, k) {
      assert ColonAfterLowers(s, i, k);
    }
  }

  /** `zurlre.MatchString(s)`: the location names a ZMQ endpoint. */
  function IsZmqUrl(s: string): (r: bool)
    ensures r <==> MatchesZurl(s)
  {
    |s| > 0 && s[0] == 'z' && ScanLowersToColon(s, 1)
  }

  /** Locations with and without a ZMQ scheme. */
  lemma ZurlExamples()
    ensures IsZmqUrl("z:x") && IsZmqUrl("zmq:x") && IsZmqUrl("zpub://host:7880")
    ensures !IsZmqUrl("tcp:x") && !IsZmqUrl("zMQ:x") && !IsZmqUrl("xzmq:")
    ensures !IsZmqUrl("-") && !IsZmqUrl("z") && !IsZmqUrl("zmq") && !IsZmqUrl("z1:x")
  {
    assert ColonAfterLowers("z:x", 1, 1);
    assert ColonAfterLowers("zmq:x", 1, 3);
    assert ColonAfterLowers("zpub://host:7880", 1, 4);
    assert !ColonAfterLowers("zMQ:x", 1, 3) by { assert !IsLower("zMQ:x"[1]); }
  }

  // ---------------------------------------------------------------------
  // Sources and sinks

  /** Where records come from: one ZMQ endpoint, or tar archives read in
      list order ("-" stands for standard input). `eof` says whether the
      end-of-stream message is exchanged. */
  datatype Source = ZMQSource(url: string, eof: bool) | TarSources(paths: seq<string>)

  /** Where records go: one ZMQ endpoint, or one tar archive. */
  datatype Sink = ZMQSink(url: string, eof: bool) | TarSinkFile(path: string)

  /** The locations a source reads, in order. */
  function SourceLocations(src: Source): seq<string> {
    match src
    case ZMQSource(url, _) => [url]
    case TarSources(paths) => paths
  }

  /** The location a sink writes. */
  function SinkLocation(snk: Sink): string {
    match snk
    case ZMQSink(url, _) => url
    case TarSinkFile(path) => path
  }

  const SingleZmqInputMsg := "can only use a single ZMQ url for input"

  /** `makesource`: the kind of the first input decides the kind of the
      source. A ZMQ input must be the only one. */
  function MakeSource(inputs: seq<string>, eof: bool): (r: Result<Source>)
    requires |inputs| >= 1
    ensures r.Failure? <==> IsZmqUrl(inputs[0]) && |inputs| > 1
    ensures r.Failure? ==> r.error == SingleZmqInputMsg
    ensures r.Success? ==> SourceLocations(r.value) == inputs
    ensures r.Success? ==> (r.value.ZMQSource? <==> IsZmqUrl(inputs[0]))
    ensures r.Success? && r.value.ZMQSource? ==> r.value.eof == eof
  {
    if IsZmqUrl(inputs[0]) then
      :- Validate(|inputs| == 1, SingleZmqInputMsg);
      Success(ZMQSource(inputs[0], eof))
    else
      Success(TarSources(inputs))
  }

  /** `makesink`: a ZMQ location gives a ZMQ sink, any other a tar file. */
  function MakeSink(output: string, eof: bool): (r: Sink)
    ensures SinkLocation(r) == output
    ensures r.ZMQSink? <==> IsZmqUrl(output)
    ensures r.ZMQSink? ==> r.eof == eof
  {
    if IsZmqUrl(output) then ZMQSink(output, eof) else TarSinkFile(output)
  }

  // ---------------------------------------------------------------------
  // Stages

  /** Descriptors of the processing stages `cat` can put in its pipeline. */
  datatype Stage =
    | Slice(start: int, end: int)
    | LogProgress(name: string, every: int)
    | Rename(fields: seq<string>, strict: bool)
    | Shuffle(bufsize: int, initial: int)

  /** The position of each kind of stage in the fixed order of a plan. */
  function Rank(st: Stage): nat {
    match st
    case Slice(_, _) => 0
    case LogProgress(_, _) => 1
    case Rename(_, _) => 2
    case Shuffle(_, _) => 3
  }

  /** The field list handed to the rename stage for the option `fields`:
      the key field, then the option split at every single space. */
  function RenameFields(fields: string): (r: seq<string>)
    ensures |r| >= 2 && r[0] == "__key__"
  {
    assert "__key__ " + fields == "__key__" + [' '] + fields;
    SplitSeparatorFree("__key__", fields, ' ');
    Split("__key__ " + fields, ' ')
  }

  /** The key field always comes first, the option's own names follow it in
      order, and joining the list back gives the string that was split. */
  lemma RenameFieldsKeyFirst(fields: string)
    ensures RenameFields(fields)[0] == "__key__"
    ensures RenameFields(fields)[1..] == Split(fields, ' ')
    ensures |RenameFields(fields)| == Occurrences(fields, ' ') + 2
    ensures Join(RenameFields(fields), ' ') == "__key__ " + fields
  {
    assert "__key__ " + fields == "__key__" + [' '] + fields;
    SplitSeparatorFree("__key__", fields, ' ');
    SplitCount(fields, ' ');
    JoinSplit("__key__ " + fields, ' ');
  }

  /** Repeated spaces give empty field names; a trailing space gives an
      empty last name. */
  lemma RenameFieldsEmptyNames()
    ensures RenameFields("a  b") == ["__key__", "a", "", "b"]
    ensures RenameFields("txt ") == ["__key__", "txt", ""]
  {
    RenameFieldsKeyFirst("a  b");
    SplitSeparatorFree("a", " b", ' ');
    SplitSeparatorFree("", "b", ' ');
    SplitSeparatorFree("b", "", ' ');
    assert "a  b" == "a" + [' '] + " b";
    assert " b" == "" + [' '] + "b";
    RenameFieldsKeyFirst("txt ");
    SplitSeparatorFree("txt", "", ' ');
    SplitSeparatorFree("", "", ' ');
    assert "txt " == "txt" + [' '] + "";
  }

  /** The shuffle stage for the option `n`, computed as the true integers
      `n+1` and `n/2+1`: a buffer of one more record than `n`, of which about
      half is filled before the first record leaves. */
  function ShuffleStage(n: GoInt): (st: Stage)
    requires n > 0
    ensures st.Shuffle?
    ensures 1 <= st.initial <= st.bufsize && st.bufsize > n as int
    ensures st.bufsize <= 2 * st.initial <= st.bufsize + 1
  {
    Shuffle(n as int + 1, n as int / 2 + 1)
  }

  /** The shuffle stage as written with Go's 64-bit `int`: `n+1` wraps
      around when `n` is the largest `int`. */
  function ShuffleStageInt64(n: GoInt): (st: Stage)
    requires n > 0
    ensures st.Shuffle?
    ensures (st.bufsize - (n as int + 1)) % 0x1_0000_0000_0000_0000 == 0
    ensures MinInt as int <= st.bufsize <= MaxInt as int
    ensures st.initial == ShuffleStage(n).initial
  {
    Shuffle(Wrap(n as int + 1) as int, (n / 2 + 1) as int)
  }

  /** Below the largest `int` the 64-bit computation is the intended one. */
  lemma ShuffleStageInt64Agrees(n: GoInt)
    requires 0 < n < MaxInt
    ensures ShuffleStageInt64(n) == ShuffleStage(n)
  {
  }

  /** At the largest `int` the buffer size wraps to the smallest `int`, below
      the number of records to collect before the first output. */
  lemma ShuffleStageInt64Overflows()
    ensures ShuffleStageInt64(MaxInt).bufsize == MinInt as int
    ensures ShuffleStageInt64(MaxInt).bufsize < ShuffleStageInt64(MaxInt).initial
  {
  }

  // ---------------------------------------------------------------------
  // The command

  /** The options of `cat`; `inputs` are its positional arguments. */
  datatype Options = Options(
    fields: string,
    output: string,
    start: GoInt,
    end: GoInt,
    shuffle: GoInt,
    noeof: bool,
    logging: GoInt,
    inputs: seq<string>)

  /** What `cat` hands to the driver: a source, the stages in order, and a
      sink. */
  datatype Plan = Plan(source: Source, pipeline: seq<Stage>, sink: Sink)

  const NoInputMsg := "must provide at least one input (can be '-')"
  const NoOutputMsg := "must provide output (can be '-')"

  /** The stage is one the options ask for, with the parameters they give. */
  ghost predicate Requested(opts: Options, st: Stage) {
    match st
    case Slice(start, end) =>
      start == opts.start as int && end == opts.end as int
    case LogProgress(name, every) =>
      opts.logging > 0 && name == "cat" && every == opts.logging as int
    case Rename(fields, strict) =>
      opts.fields != "" && fields == RenameFields(opts.fields) && !strict
    case Shuffle(bufsize, initial) =>
      opts.shuffle > 0 && bufsize == opts.shuffle as int + 1 && initial == opts.shuffle as int / 2 + 1
  }

  /** One slice stage, plus one for each optional stage the options ask for. */
  function RequestedCount(opts: Options): nat {
    1 + (if opts.logging > 0 then 1 else 0)
      + (if opts.fields != "" then 1 else 0)
      + (if opts.shuffle > 0 then 1 else 0)
  }

  /** Every stage comes strictly after the stages of lower rank. */
  ghost predicate InStageOrder(stages: seq<Stage>) {
    forall i, j :: 0 <= i < j < |stages| ==> Rank(stages[i]) < Rank(stages[j])
  }

  /** The stages the options call for: as many as requested, each with the
      parameters the options give it, in the fixed order of kinds. */
  ghost predicate PlannedStages(opts: Options, stages: seq<Stage>) {
    && |stages| == RequestedCount(opts)
    && InStageOrder(stages)
    && forall i :: 0 <= i < |stages| ==> Requested(opts, stages[i])
  }

  /** `catcmd`: validate the options, grow the stage list one optional
      stage at a time, then pick the source and the sink. */
  method CatCmd(opts: Options) returns (r: Result<Plan>)
    ensures |opts.inputs| == 0 ==> r == Failure(NoInputMsg)
    ensures |opts.inputs| > 0 && opts.output == "" ==> r == Failure(NoOutputMsg)
    ensures |opts.inputs| > 0 && opts.output != "" ==>
              (r.Failure? <==> IsZmqUrl(opts.inputs[0]) && |opts.inputs| > 1)
    ensures r.Failure? && |opts.inputs| > 0 && opts.output != "" ==> r.error == SingleZmqInputMsg
    ensures r.Success? ==> |opts.inputs| > 0 && opts.output != ""
    ensures r.Success? ==> r.value.source == MakeSource(opts.inputs, !opts.noeof).value
    ensures r.Success? ==> r.value.sink == MakeSink(opts.output, !opts.noeof)
    ensures r.Success? ==> PlannedStages(opts, r.value.pipeline)
  {
    var inputs, output := opts.inputs, opts.output;
    :- Validate(|inputs| >= 1, NoInputMsg);
    :- Validate(output != "", NoOutputMsg);
    var processes: seq<Stage> := [];
    AppendRequested(opts, processes, Slice(opts.start as int, opts.end as int));
    processes := processes + [Slice(opts.start as int, opts.end as int)];
    if opts.logging > 0 {
      AppendRequested(opts, processes, LogProgress("cat", opts.logging as int));
      processes := processes + [LogProgress("cat", opts.logging as int)];
    }
    if opts.fields != "" {
      var fields := RenameFields(opts.fields);
      AppendRequested(opts, processes, Rename(fields, false));
      processes := processes + [Rename(fields, false)];
    }
    if opts.shuffle > 0 {
      var n := opts.shuffle;
      AppendRequested(opts, processes, ShuffleStage(n));
      processes := processes + [ShuffleStage(n)];
    }
    var source :- MakeSource(inputs, !opts.noeof);
    var sink := MakeSink(output, !opts.noeof);
    return Success(Plan(source, processes, sink));
  }

  /** Appending a requested stage of higher rank than the last keeps the
      list ordered and made of requested stages. */
  lemma AppendRequested(opts: Options, stages: seq<Stage>, st: Stage)
    requires InStageOrder(stages) && forall i :: 0 <= i < |stages| ==> Requested(opts, stages[i])
    requires |stages| > 0 ==> Rank(stages[|stages| - 1]) < Rank(st)
    requires Requested(opts, st)
    ensures InStageOrder(stages + [st])
    ensures forall i :: 0 <= i < |stages + [st]| ==> Requested(opts, (stages + [st])[i])
  {
  }

  /** A planned stage list starts with the slice stage and holds each
      optional stage exactly when its option asks for it. */
  lemma PlannedStagesHaveRequestedKinds(opts: Options, stages: seq<Stage>)
    requires PlannedStages(opts, stages)
    ensures stages[0] == Slice(opts.start as int, opts.end as int)
    ensures opts.logging > 0 <==> exists i :: 0 <= i < |stages| && stages[i].LogProgress?
    ensures opts.fields != "" <==> exists i :: 0 <= i < |stages| && stages[i].Rename?
    ensures opts.shuffle > 0 <==> exists i :: 0 <= i < |stages| && stages[i].Shuffle?
  {
    OrderedRanks(stages);
    assert Requested(opts, stages[0]);
    if opts.logging > 0 {
      assert stages[1].LogProgress?;
    }
    if opts.fields != "" {
      assert stages[if opts.logging > 0 then 2 else 1].Rename?;
    }
    if opts.shuffle > 0 {
      assert stages[|stages| - 1].Shuffle?;
    }
  }

  /** Consecutive stages of an ordered list have increasing ranks. */
  lemma OrderedRanks(stages: seq<Stage>)
    requires InStageOrder(stages)
    ensures |stages| >= 2 ==> Rank(stages[0]) < Rank(stages[1])
    ensures |stages| >= 3 ==> Rank(stages[1]) < Rank(stages[2])
    ensures |stages| >= 4 ==> Rank(stages[2]) < Rank(stages[3])
  {
  }

  /** A shuffle stage in a planned list buffers more records than the
      option asks for and fills at least one and at most all of its buffer
      before the first record leaves. */
  lemma PlannedShuffleBounds(opts: Options, stages: seq<Stage>, i: nat)
    requires PlannedStages(opts, stages)
    requires i < |stages| && stages[i].Shuffle?
    ensures 1 <= stages[i].initial <= stages[i].bufsize
    ensures stages[i].bufsize > opts.shuffle as int > 0
  {
    assert Requested(opts, stages[i]);
    var st := ShuffleStage(opts.shuffle);
    assert stages[i] == st;
  }

  /** The contract of CatCmd pins the stage list down: two lists that both
      meet it are the same list. */
  lemma PlannedStagesUnique(opts: Options, a: seq<Stage>, b: seq<Stage>)
    requires PlannedStages(opts, a) && PlannedStages(opts, b)
    ensures a == b
  {
    OrderedRanks(a);
    OrderedRanks(b);
    forall i | 0 <= i < |a|
      ensures a[i] == b[i]
    {
      assert Requested(opts, a[i]) && Requested(opts, b[i]);
    }
  }
}
