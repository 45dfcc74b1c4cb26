# Backfiller core in Dafny

This project models the backfill orchestration of `main.go` in the recording-rule
backfiller for Prometheus TSDB. The modelled steps are:

- **Rule normalisation** (`parseRules`): parsed rule groups are reduced to the recording
  rules they declare, in group order and then rule order. One expression that fails to
  parse rejects the whole file.
- **Time-range resolution** (`getTimeRange`): the window is the storage's own range, from
  the least minimum of the head and of every block up to the head maximum. It can only be
  narrowed by the optional start and end overrides. An inverted window is an error.
- **Evaluation, relabelling and batching** (`backfillRules`, `min`, `max`):
  - each rule is queried at `start, start + interval, …` up to `end`, and a query error
    skips only that instant;
  - every result sample is renamed after the rule and given the rule's labels;
  - samples are collected into a batch whose running minimum and maximum timestamps are
    kept;
  - a block is created whenever the batch reaches `maxSamples` samples, and once more for
    a non-empty remainder at the end;
  - a failing block creation ends the run.

Modules:

- `Base` (base.dfy): the `int64` range, Go's `min`/`max`, Go's wrapping `int64` addition,
  the `Result` type and label sets as maps.
- `Rules` (rules.dfy): `parseRules` as a method with nested loops. It is specified against
  `Normalize(Flatten(groups))`, a left-to-right reference fold. `NormalizeSpec` then states
  what that fold means in terms of `Qualifying`, the recording rules among the definitions.
- `TimeRanges` (timerange.dfy): `getTimeRange` as a method with its fold over block minima.
  It is specified against the functions `LowerBound`, `ClampStart`, `ClampEnd` and
  `Resolve`.
- `Relabel` (relabel.dfy): the label rewriting of one result sample. `ToSample` builds the
  output sample from the rewritten labels and the raw sample's value and timestamp, unchanged.
- `Batching` (batching.dfy): blocks, the running bounds `MinTs`/`MaxTs`, and the reference
  batching `Chunks`, which cuts the produced samples into consecutive blocks of
  `maxSamples` samples.
- `Accumulate` (accumulate.dfy): the batch accumulator as a state machine.
  - `Push` handles one sample and `PushAll` a sequence of samples.
  - In `Backfill`, `Outputs` gives the samples one query contributes: the relabelled vector,
    or nothing for a query error.
  - `PushAllSpec` and `RunOutcome` relate the accumulator to `Chunks`.
- `Backfill` (backfill.dfy): the evaluation instants, the query schedule, and the loops of
  `backfillRules`.
  - The four nested levels of the Go function are four methods: the per-sample body, the
    sample loop, the instant loop and the rule loop. `BackfillRules` adds the final flush.
  - Each method is specified against `PushAll` applied to the outputs of the queries it
    made.
  - `BackfillRules` promises `Outcome`: its block-creation calls are the blocks of
    `Chunks(Produced(plan))` up to and including the first that fails, and it completes
    exactly when none fails.

The surroundings are oracles:

- The query engine is a function `(rule index, instant) -> Vector | QueryError`.
- The expression parser is a function `string -> Result<Expr, string>`.
- `tsdb.CreateBlock` is a function from the call's ordinal to success or failure. Every
  call, with its samples and bounds, appears in the `attempts` output of `BackfillRules`.

Choices a reader might not expect, all following the code:

- The first instant is `start` itself, not `start + interval`. `InstantsExample` shows the
  window `[0, 100000]` at a 30000 ms interval evaluated at 0, 30000, 60000 and 90000.
- The global evaluation interval is used for every rule. A group's own interval is never
  consulted.
- A failing block creation only ends `backfillRules`, which returns no error. `main` then
  returns normally (main.go:107-109), so the process exits with status 0.

## Model

| member | source | states |
|---|---|---|
| Base.Max | main.go:260-265 | the result is at least both arguments and is one of them |
| Base.Min | main.go:267-272 | the result is at most both arguments and is one of them |
| Base.WrapAdd | main.go:212 | Go's int64 addition: the exact sum when it fits, otherwise the sum shifted by 2^64 into range |
| Rules.Qualifying | main.go:129-131 | the kept definitions are no more than the input, each has a non-empty record name and each comes from the input |
| Rules.FlattenAppend | main.go:128-129 | walking the groups of a concatenation visits the definitions of the first part, then those of the second |
| Rules.NormalizeErrSticky | main.go:132-136 | once an expression has failed, later definitions cannot change the result |
| Rules.FlattenCons | main.go:128-129 | the definitions of a group list are those of its first group followed by those of the rest |
| Rules.NormalizeOk | main.go:128-142 | a successful normalisation has one descriptor per recording rule, in order, each with that rule's name, parsed expression and labels |
| Rules.NormalizeErr | main.go:131-136 | a failed normalisation carries the cause of the first recording rule whose expression fails, all earlier ones parsing |
| Rules.NormalizeSpec | main.go:128-142 | success iff every recording rule's expression parses; then one descriptor per recording rule, in order, with its own name, parsed expression and labels; otherwise the error of the first recording rule whose expression fails |
| Rules.ParseRules | main.go:121-143 | file errors are passed on unchanged; otherwise the normalised rule list is returned, or one expression error wrapped with the file name and no rules |
| TimeRanges.LowerBound | main.go:156-159 | the bound is at most the head minimum and every block minimum, and equals one of them |
| TimeRanges.ClampStart | main.go:161-171 | an absent start is the lower bound; a start below it is raised to it; a start at or above it is kept |
| TimeRanges.ClampEnd | main.go:173-183 | an absent end is the head maximum; an end above it is lowered to it; an end at or below it is kept |
| TimeRanges.Resolve | main.go:161-189 | a malformed start is reported before a malformed end; otherwise a window results iff the clamped start is not after the clamped end; a window lies within [lower bound, head max]; in-range overrides are kept exactly; the window is exactly the clamped start and the clamped end, so an absent or too-early start becomes the lower bound and an absent or too-late end the head max |
| TimeRanges.GetTimeRange | main.go:150-190 | the method's result is the reference resolution, and a returned window has start <= end |
| Relabel.RelabelSet | main.go:219-224 | the keys are the raw keys plus `__name__` plus the rule's label keys; rule labels win; otherwise `__name__` is the rule name; other raw labels are kept |
| Relabel.RelabelIdempotent | main.go:219-224 | relabelling an already relabelled set with the same rule changes nothing |
| Batching.BoundsSnoc | main.go:228-229 | folding one more timestamp into the running bounds is `min`/`max` with it |
| Batching.BoundsSpec | main.go:207-229 | the running bounds of a non-empty batch are the least and greatest timestamp in it, whatever the order; an empty batch keeps the MaxInt64/MinInt64 sentinels |
| Batching.ChunksCover | main.go:225-255 | concatenating the blocks of the reference batching gives back the produced samples, in order |
| Batching.ChunksShape | main.go:231-255 | no block is empty; each carries its own samples' bounds; every block but the last has exactly `maxSamples` samples and the last at most that; with `maxSamples <= 0` there is at most one block |
| Batching.ChunksAfterFull | main.go:231-242 | blocks already cut at the threshold are the first blocks of the reference batching of their samples and what follows |
| Accumulate.PushAllIdle | main.go:233-236 | after a failed block creation, no further sample changes anything |
| Accumulate.PushAllAppend | main.go:211-245 | feeding two runs of samples in turn is feeding their concatenation |
| Accumulate.StopsAt | main.go:233-236 | a run stopped within a prefix of the samples ends in the state the prefix left |
| Accumulate.PushSpec | main.go:225-242 | one sample either keeps the accumulator running, with every flushed block full and exact and the batch below the threshold, or stops it at a failed creation of a full block; no sample is lost |
| Accumulate.PushAllSpec | main.go:218-243 | for any sample sequence: when still running, the flushed blocks followed by the batch are the old contents followed by the new samples; when stopped, the flushed blocks begin them and only the last creation failed |
| Accumulate.RunOutcome | main.go:211-255 | from the empty batch: when still running, the created blocks plus a remainder block are exactly the reference batching; when stopped, the created blocks are the reference blocks up to and including the first failing one |
| Accumulate.FlushOutcome | main.go:247-255 | after the final flush of a non-empty remainder, the blocks created are the reference blocks up to and including the first failing one, and the run completes iff no reference block creation fails |
| Backfill.InstantsSpec | main.go:212 | the instants are exactly start + k*interval, in order, the last not after end and the next one past it |
| Backfill.InstantsExample | main.go:212 | the window [0, 100000] at 30000 ms is evaluated at 0, 30000, 60000, 90000 |
| Backfill.AsWrittenNeverEnds | main.go:212 | with Go's wrapping step and end = MaxInt64, the guard holds for every number of iterations |
| Backfill.WrapCounterexample | main.go:212 | from MaxInt64 - 1 at interval 2, the as-written loop goes on to MinInt64 and MinInt64 + 2, where only MaxInt64 - 1 is intended |
| Backfill.AsWrittenAgrees | main.go:212 | when end + interval cannot overflow, the as-written loop visits exactly the intended instants |
| Backfill.ProducedAppend | main.go:211-245 | the outputs of consecutive runs of queries are the concatenation of their outputs |
| Backfill.ProducedPrefix | main.go:211-245 | the outputs of a prefix of the queries begin the outputs of all of them |
| Backfill.SchedulePrefixAt | main.go:211-212 | the queries of the rules before `i` followed by a prefix of rule `i`'s queries begin the whole plan |
| Backfill.AddSample | main.go:219-242 | relabels, appends, updates the bounds and flushes at the threshold, ending in exactly the state `Push` gives |
| Backfill.AddResults | main.go:218-243 | the state after the result loop is `PushAll` of the relabelled vector, stopping at a failed creation |
| Backfill.EvaluateRule | main.go:212-244 | the rule's queries so far are its instants in order (all of them unless stopped); the state is `PushAll` of their outputs, a query error contributing nothing; when stopped, the last query is the one whose outputs made a block creation fail, the earlier ones leaving the accumulator running |
| Backfill.EvaluateRules | main.go:211-245 | the queries made are the whole plan, or, if stopped, a prefix of it ending with the query whose outputs made a block creation fail; the state is `PushAll` of their outputs |
| Backfill.RulesStop | main.go:233-236 | a rule's queries that stopped the accumulator stop the whole run at the same last query |
| Backfill.Conclude | main.go:211-255 | the rule loop's final state, stopped at its last query or not, followed by the final flush yields `Outcome` against the whole plan |
| Backfill.BackfillRules | main.go:203-258 | `Outcome`: completes iff no reference block creation fails; if it completes, exactly the planned queries and the reference blocks; otherwise the reference blocks up to and including the first failing one, and either the whole plan with the accumulator still running after its outputs (only the final flush failed) or the plan's queries up to the one whose outputs made a block creation fail, with none after it |

## Left out

- `main`, `newQueryEngine`, the query logger, `tsdb.Open` and the destination path are not part of this model. They are process and I/O plumbing; the query engine is an oracle.
- `parseTime` is not part of this model: float parsing and RFC 3339 parsing are library behaviour. An override is given as absent, as an int64 millisecond timestamp, or as malformed text.
- Overrides below millisecond precision are dropped: `stime.After(etime)` compares nanoseconds in the source, and the model compares milliseconds.
- `rulefmt.ParseFile` is an input that is already parsed groups or a list of errors. `parser.ParseExpr` is an oracle. An expression is represented by its text only.
- Label sets are maps. The sorting done by `labels.Builder`, and its deletion of labels set to the empty value, are not modelled.
- What `tsdb.CreateBlock` writes to disk, and the block ids it returns, are not modelled; only its success or failure is.
- Logging is not modelled.
- The reuse of the slice's backing array by `mss = mss[:0]` is not modelled: the batch is a value.
- Backfill.BackfillRules: requires a positive interval, which the source never checks. With a zero interval the source loops forever. A negative interval, which `time.ParseDuration` accepts (for example `-30s`), is excluded too: `t` then moves away from `end`, and the loop only stops once `t` wraps around past MinInt64. `evalInterval.Milliseconds()` (main.go:107) truncates any `--eval-interval` below one millisecond to 0, so such a flag value makes the source loop forever as well.
- Backfill.EvaluateRule: steps `t` in unbounded integers, which is the corrected behaviour described under Findings. The wrapping loop of the source is modelled separately by `AsWrittenInstants`.

## Findings

| source | as written | input that shows it | evidently intended | confidence | as-written member | corrected member |
|---|---|---|---|---|---|---|
| main.go:212 | `t += evalInterval` on int64 wraps around past MaxInt64, so `t <= end` can stay true forever | a storage whose head maximum timestamp is 9223372036854775807 (MaxInt64): the resolved end is then MaxInt64 when no end override is given, or one of MaxInt64 (an override at or below the head maximum is kept, main.go:178-179); every int64 `t` satisfies the guard, so the loop never ends. More generally, the step can wrap only when the resolved end is within one interval of MaxInt64, which needs the head maximum to be there too, and it wraps exactly when the last instant not after `end` is greater than MaxInt64 - interval; from MaxInt64 - 1 at interval 2 the next instants are MinInt64 and MinInt64 + 2 | the loop stops after the last instant not after `end` | not executed | Backfill.AsWrittenNeverEnds | Backfill.InstantsSpec |
