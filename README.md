# `tarp cat`: configuration layer

`tarp cat` concatenates sample streams: it reads records from tar archives or
from a ZMQ endpoint, passes them through a pipeline of stages (slice, progress
log, field rename, in-memory shuffle) and writes them to a tar archive or a
ZMQ endpoint. This project models the deterministic part of the command in
`cmd/cat.go`: how a location is classified as a ZMQ endpoint, how the source
and the sink are chosen and validated, and how the ordered list of stages is
built from the options. Sources, sinks and stages are descriptor values
(`Cat.Source`, `Cat.Sink`, `Cat.Stage`); `Cat.CatCmd` returns the `Cat.Plan`
(source, stages, sink) that the command hands to the driver, or the
configuration fault that stops it.

Files:

- `wrappers.dfy` (module `Wrappers`): `Result`, `Check` and `Validate`; a
  failed validation is a `Failure` carrying the command's own message.
- `gostrings.dfy` (module `GoStrings`): `strings.Split` on a one-character
  separator, `strings.Join`, and the round trips between them.
- `cat.dfy` (module `Cat`): the `^z[a-z]*:` classification, `makesource`,
  `makesink`, the stage descriptors and `catcmd`.

Go's `int` is modelled as `Cat.GoInt`, the 64-bit range. The stage
descriptors hold true integers, so the computation `n+1` of the shuffle
buffer size is modelled both as written (wrapping) and as intended; see
"## Findings".
The stage list is built (cmd/cat.go:50-69) before `Processing` is called, so
it exists before `makesource` can fail. Go evaluates the arguments of
`Processing` left to right, so `makesource` runs before `makesink`.

## Model

| member | source | states |
|---|---|---|
| `Cat.ScanLowersToColon` | cmd/cat.go:24 | scanning lower-case letters from index i answers true exactly when a colon follows a (possibly empty) run of lower-case ASCII letters |
| `Cat.IsZmqUrl` | cmd/cat.go:24 | a location is a ZMQ endpoint exactly when it starts with `z`, then zero or more letters `a`-`z`, then `:` |
| `Cat.ZurlExamples` | cmd/cat.go:24 | `z:x`, `zmq:x` match; `tcp:x`, `zMQ:x`, `xzmq:`, `-`, `z`, `zmq`, `z1:x` do not |
| `Cat.MakeSource` | cmd/cat.go:26-34 | fails, with the single-ZMQ-input message, exactly when the first input is a ZMQ location and there is more than one input; otherwise the source is ZMQ exactly when the first input is, reads exactly the inputs in order, and a ZMQ source gets the given eof flag |
| `Cat.MakeSink` | cmd/cat.go:36-43 | the sink writes exactly the output location, is ZMQ exactly when that location is, and a ZMQ sink gets the given eof flag |
| `Wrappers.Validate` | cmd/cat.go:46-47 | validation passes exactly when its condition holds and otherwise fails with the given message |
| `Cat.CatCmd` | cmd/cat.go:45-76 | no inputs fails with the no-input message, then an empty output with the no-output message, then a multi-input ZMQ source with its message, and nothing else fails; on success the source and sink are those of `MakeSource`/`MakeSink` with eof = not `noeof`, and the stages are the planned ones: one slice plus one per option set, each with the options' parameters (the shuffle sizes as true integers, see "## Findings"), in the fixed order slice, log, rename, shuffle |
| `Cat.PlannedStagesHaveRequestedKinds` | cmd/cat.go:50-69 | a planned stage list begins with `Slice(start, end)` and holds a progress-log, rename or shuffle stage exactly when `logging > 0`, `fields != ""` or `shuffle > 0` respectively |
| `Cat.PlannedStagesUnique` | cmd/cat.go:50-69 | the planned-stage contract determines the stage list completely: two lists that both meet it are equal |
| `Cat.PlannedShuffleBounds` | cmd/cat.go:65-68 | a shuffle stage in a planned list has `1 <= initial <= bufsize` and a buffer larger than the positive shuffle option |
| `Cat.RenameFields` | cmd/cat.go:61 | the rename field list has at least two entries and its first is `__key__` |
| `Cat.RenameFieldsKeyFirst` | cmd/cat.go:60-63 | the rename field list starts with `__key__`, continues with the option split at single spaces, has two more entries than the option has spaces, and joins back to `"__key__ " + fields` |
| `Cat.RenameFieldsEmptyNames` | cmd/cat.go:61 | repeated and trailing spaces produce empty field names: `"a  b"` gives `__key__, a, "", b` |
| `Cat.ShuffleStage` | cmd/cat.go:65-68 | for n > 0 the shuffle stage has `1 <= initial <= bufsize`, a buffer larger than n, and an initial fill of half the buffer rounded up |
| `Cat.Wrap` | cmd/cat.go:68 | Go's wrapping `int` addition: the result lies in the 64-bit range, agrees with the true value modulo 2^64, and equals it when the true value is in range |
| `Cat.ShuffleStageInt64` | cmd/cat.go:68 | the as-written shuffle stage: the buffer size is the 64-bit `int` congruent to n+1 modulo 2^64 and the initial fill is n/2+1 |
| `Cat.ShuffleStageInt64Agrees` | cmd/cat.go:68 | below the largest 64-bit `int` the as-written stage equals the intended one |
| `Cat.ShuffleStageInt64Overflows` | cmd/cat.go:68 | at the largest 64-bit `int` the as-written buffer size is the smallest `int`, below the initial fill |
| `GoStrings.Split` | cmd/cat.go:61 | `strings.Split` on a one-character separator always yields at least one piece |
| `GoStrings.SplitPiecesAreSeparatorFree` | cmd/cat.go:61 | no piece of a split contains the separator |
| `GoStrings.SplitCount` | cmd/cat.go:61 | a split has one piece more than the string has separators |
| `GoStrings.JoinSplit` | cmd/cat.go:61 | joining the pieces of a split with the separator gives back the string |
| `GoStrings.SplitJoin` | cmd/cat.go:61 | splitting a join of separator-free pieces gives back the pieces |
| `GoStrings.SplitSeparatorFree` | cmd/cat.go:61 | a separator-free string is one piece, and before a separator it is the first piece with the rest split on its own |

## Findings

| source | as written | input that shows it | evidently intended | confidence | as-written member | corrected member |
|---|---|---|---|---|---|---|
| cmd/cat.go:68 | `datapipes.Shuffle(n+1, n/2+1)` with `n` a 64-bit `int`: `n+1` wraps around | `--shuffle 9223372036854775807` gives `bufsize = -9223372036854775808` and `initial = 4611686018427387904`, so the buffer is smaller than the initial fill | a buffer of `n+1` records, at least the initial fill | not executed; the wrap follows from Go's integer semantics, the input is extreme | `Cat.ShuffleStageInt64Overflows` | `Cat.ShuffleStage` |

## Left out

- Cat.CatCmd: builds the corrected shuffle stage `Cat.ShuffleStage`, with `bufsize = n+1` as a true integer; at `shuffle = MaxInt` (2^63-1) the program as written builds `Cat.ShuffleStageInt64(MaxInt)`, whose buffer size wraps to the smallest `int` (see "## Findings"). For every other shuffle value the two agree (`Cat.ShuffleStageInt64Agrees`).
- Option declaration, struct tags and command registration (`catopts` tags, `init`, `Parser.AddCommand`, `Commands`): command-line plumbing. `Cat.Options` holds the parsed values, with the flags' defaults left to the parser.
- Logging (`infolog.Println`, `datapipes.Debug.Println`, `MyInfo`) and the logger handed to `LogProgress`: side effects only; `Cat.LogProgress` keeps the name and the period.
- What the stages, sources, sinks, `Pipeline` and `Processing` do at run time (concurrency, sockets, tar I/O): their code is not part of this model. `Cat.CatCmd` returns the plan it would hand to `Processing` instead of running it.
- `Wrappers.Validate`: its definition is not part of this model; a failed validation is a `Failure` with the message, and how the process exits is not modelled.
- Regular expressions in general: only the fixed pattern `^z[a-z]*:` is modelled, as a hand-written scanner.
- Strings are sequences of Unicode characters; Go's UTF-8 byte representation is not modelled (the pattern and the separator are ASCII, so classification and splitting are the same on valid UTF-8).
- `GoStrings.Split` models `strings.Split` only for a one-character separator, the only form the command uses.
- The initial capacity 100 of the stage slice: it does not affect the result.
