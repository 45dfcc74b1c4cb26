/**
 * `backfillRules`: every recording rule is evaluated at each instant of the
 * window, the results are relabelled and accumulated, and a block is created
 * each time the batch reaches `maxSamples` samples and once more at the end.
 */
module Backfill {
  import opened Base
  import opened Rules
  import opened Relabel
  import opened Batching
  import opened TimeRanges
  import opened Accumulate

  /** What the query function returns for one rule at one instant. */
  datatype QueryResult = Vector(samples: seq<RawSample>) | QueryError(msg: string)

  /** The query function, an oracle: the result of evaluating rule `i` at instant `t`. */
  type QueryFunc = (nat, int64) -> QueryResult

  /** Whether the `k`-th block-creation call succeeds; an oracle standing for the storage writer. */
  type BlockWriter = nat -> bool

  /** One call of the query function: the rule's index and the evaluation instant. */
  datatype Query = Query(rule: nat, t: int64)

  /** The evaluation instants t, t + interval, ... that are at most `end`. */
  function Instants(t: int, end: int64, interval: int): seq<int64>
    requires interval > 0 && MinInt64 <= t
    decreases if t > end then 0 else end - t + 1
  {
    if t > end then [] else [t as int64] + Instants(t + interval, end, interval)
  }

  lemma StepDistributes(t: int, k: int, interval: int)
    ensures (t + interval) + (k - 1) * interval == t + k * interval
  {
    assert (k - 1) * interval == k * interval - interval;
  }

  /**
   * The instants are exactly t + k * interval for k = 0, 1, ..., in this
   * order, up to the last one not after `end`: the next step would pass `end`.
   */
  lemma {:induction false} InstantsSpec(t: int, end: int64, interval: int)
    requires interval > 0 && MinInt64 <= t
    ensures var ts := Instants(t, end, interval);
      (forall k :: 0 <= k < |ts| ==> ts[k] == t + k * interval) &&
      (ts != [] ==> ts[|ts| - 1] <= end) &&
      end < t + |ts| * interval
    decreases if t > end then 0 else end - t + 1
  {
    if t <= end {
      var ts := Instants(t, end, interval);
      var rest := Instants(t + interval, end, interval);
      InstantsSpec(t + interval, end, interval);
      assert ts == [t as int64] + rest;
      forall k | 0 <= k < |ts| ensures ts[k] == t + k * interval {
        if k > 0 {
          assert ts[k] == rest[k - 1];
          StepDistributes(t, k, interval);
        }
      }
      StepDistributes(t, |ts|, interval);
      if rest == [] {
        assert ts[|ts| - 1] == t;
      } else {
        assert ts[|ts| - 1] == rest[|rest| - 1];
      }
    }
  }

  /**
   * The instant loop as written, where `t += evalInterval` is Go's wrapping
   * int64 addition; at most `n` iterations are unrolled, since this loop
   * need not end.
   */
  function AsWrittenInstants(t: int64, end: int64, interval: int64, n: nat): seq<int64>
    decreases n
  {
    if n == 0 || t > end then [] else [t] + AsWrittenInstants(WrapAdd(t, interval), end, interval, n - 1)
  }

  /** With `end` at the largest int64 the guard `t <= end` never fails: the as-written loop never ends. */
  lemma {:induction false} AsWrittenNeverEnds(t: int64, interval: int64, n: nat)
    ensures |AsWrittenInstants(t, MaxInt64, interval, n)| == n
    decreases n
  {
    if n > 0 {
      AsWrittenNeverEnds(WrapAdd(t, interval), interval, n - 1);
    }
  }

  /** An instance: just below the largest int64 the step wraps around and the loop goes on from the smallest. */
  lemma WrapCounterexample()
    ensures AsWrittenInstants(MaxInt64 - 1, MaxInt64, 2, 3) == [MaxInt64 - 1, MinInt64, MinInt64 + 2]
    ensures Instants(MaxInt64 - 1, MaxInt64, 2) == [MaxInt64 - 1]
  {
    assert WrapAdd(MaxInt64 - 1, 2) == MinInt64;
    assert WrapAdd(MinInt64, 2) == MinInt64 + 2;
    assert Instants(MaxInt64 + 1, MaxInt64, 2) == [];
  }

  /** Where no step can overflow, the as-written loop visits exactly the intended instants. */
  lemma {:induction false} AsWrittenAgrees(t: int64, end: int64, interval: int64, n: nat)
    requires interval > 0 && end <= MaxInt64 - interval && n >= |Instants(t, end, interval)|
    ensures AsWrittenInstants(t, end, interval, n) == Instants(t, end, interval)
    decreases n
  {
    if t <= end {
      assert WrapAdd(t, interval) == t + interval;
      AsWrittenAgrees(WrapAdd(t, interval), end, interval, n - 1);
    }
  }

  /** An instance: the window [0, 100000] at a 30-second interval is evaluated at 0, 30000, 60000 and 90000. */
  lemma InstantsExample()
    ensures Instants(0, 100000, 30000) == [0, 30000, 60000, 90000]
  {
    assert Instants(120000, 100000, 30000) == [];
  }

  /** One step of the instant loop: `t` is the next instant, and it is followed by those from `t + interval`. */
  lemma InstantsStep(insts: seq<int64>, done: seq<int64>, t: int, end: int64, interval: int)
    requires interval > 0 && MinInt64 <= t <= end
    requires insts == done + Instants(t, end, interval)
    ensures insts == (done + [t as int64]) + Instants(t + interval, end, interval)
    ensures done + [t as int64] <= insts
  {
    var rest := Instants(t + interval, end, interval);
    assert Instants(t, end, interval) == [t as int64] + rest;
    ShiftOne(done, t as int64, rest);
  }

  /** The queries for rule `i`: one per instant, chronologically. */
  function RuleQueries(i: nat, ts: seq<int64>): (qs: seq<Query>)
  {
    seq(|ts|, k requires 0 <= k < |ts| => Query(i, ts[k]))
  }

  lemma RuleQueriesSnoc(i: nat, done: seq<int64>, t: int64)
    ensures RuleQueries(i, done + [t]) == RuleQueries(i, done) + [Query(i, t)]
  {
  }

  /** The whole schedule: the rules in order, each at all instants. */
  function Schedule(n: nat, ts: seq<int64>): seq<Query>
  {
    if n == 0 then [] else Schedule(n - 1, ts) + RuleQueries(n - 1, ts)
  }

  ghost predicate RulesIn(qs: seq<Query>, n: nat)
  {
    forall k :: 0 <= k < |qs| ==> qs[k].rule < n
  }

  /** The output samples of one query result of `rule`: nothing for an error. */
  function Outputs(rule: RecordingRule, res: QueryResult): seq<Sample>
  {
    match res
    case QueryError(_) => []
    case Vector(v) => Relabeled(rule, v)
  }

  /** All output samples of the queries `qs`, in query order. */
  function Produced(rules: seq<RecordingRule>, qs: seq<Query>, query: QueryFunc): seq<Sample>
    requires RulesIn(qs, |rules|)
  {
    if qs == [] then []
    else
      var q := qs[|qs| - 1];
      Produced(rules, qs[..|qs| - 1], query) + Outputs(rules[q.rule], query(q.rule, q.t))
  }

  lemma {:induction false} ScheduleRules(n: nat, ts: seq<int64>)
    ensures RulesIn(Schedule(n, ts), n)
  {
    if n > 0 {
      ScheduleRules(n - 1, ts);
    }
  }

  /** A prefix of the schedule: all rules before `i`, then a prefix of rule `i`'s queries. */
  lemma {:induction false} SchedulePrefixAt(i: nat, n: nat, ts: seq<int64>, calls: seq<Query>)
    requires i < n && calls <= RuleQueries(i, ts)
    ensures Schedule(i, ts) + calls <= Schedule(n, ts)
    decreases n
  {
    if i < n - 1 {
      SchedulePrefixAt(i, n - 1, ts, RuleQueries(i, ts));
    }
  }

  lemma {:induction false} ProducedPrefix(rules: seq<RecordingRule>, a: seq<Query>, b: seq<Query>, query: QueryFunc)
    requires a <= b && RulesIn(b, |rules|)
    ensures RulesIn(a, |rules|)
    ensures Produced(rules, a, query) <= Produced(rules, b, query)
    decreases |b|
  {
    if a != b {
      var b' := b[..|b| - 1];
      assert a <= b';
      ProducedPrefix(rules, a, b', query);
    }
  }

  lemma ProducedSnoc(rules: seq<RecordingRule>, qs: seq<Query>, q: Query, query: QueryFunc)
    requires RulesIn(qs, |rules|) && q.rule < |rules|
    ensures RulesIn(qs + [q], |rules|)
    ensures Produced(rules, qs + [q], query) ==
      Produced(rules, qs, query) + Outputs(rules[q.rule], query(q.rule, q.t))
  {
    assert (qs + [q])[..|qs + [q]| - 1] == qs;
  }

  /**
   * The queries `qs`, their outputs fed to the accumulator `a`, stopped it
   * with their last one: the outputs of all the earlier queries left it
   * running, and those of the last one made a block creation fail.
   */
  ghost predicate StoppedBy(a: Acc, rules: seq<RecordingRule>, qs: seq<Query>, query: QueryFunc,
                            maxSamples: int, blockOk: BlockWriter)
  {
    qs != [] && RulesIn(qs, |rules|) &&
    PushAll(a, Produced(rules, qs[..|qs| - 1], query), maxSamples, blockOk).ok &&
    !PushAll(a, Produced(rules, qs, query), maxSamples, blockOk).ok
  }

  /** The reference outcome of a run: the full schedule, its samples, and their batching. */
  function Plan(rules: seq<RecordingRule>, tr: TimeRange, interval: int): seq<Query>
    requires interval > 0
  {
    Schedule(|rules|, Instants(tr.start, tr.end, interval))
  }

  function Expected(rules: seq<RecordingRule>, tr: TimeRange, interval: int, maxSamples: int, query: QueryFunc): seq<Block>
    requires interval > 0
  {
    ScheduleRules(|rules|, Instants(tr.start, tr.end, interval));
    Chunks(Produced(rules, Plan(rules, tr, interval), query), maxSamples)
  }
  /**
   * One sample of a result vector: it is relabelled and appended to the
   * batch, and the running bounds take in its timestamp; when the batch then
   * holds `maxSamples` samples, a block is created from it with those bounds
   * and, if that succeeds, the batch and the bounds are reset. `ok` is false
   * when that block creation failed.
   */
  method AddSample(rule: RecordingRule, raw: RawSample, maxSamples: int, blockOk: BlockWriter,
                   attempts0: seq<Block>, batch0: seq<Sample>, minTime0: int64, maxTime0: int64)
    returns (attempts: seq<Block>, batch: seq<Sample>, minTime: int64, maxTime: int64, ok: bool)
    ensures Acc(attempts, batch, minTime, maxTime, ok) ==
      Push(Acc(attempts0, batch0, minTime0, maxTime0, true), ToSample(rule, raw), maxSamples, blockOk)
  {
    var s := Sample(RelabelSet(raw.metric, rule.name, rule.lset), raw.v, raw.t);
    attempts, batch, ok := attempts0, batch0 + [s], true;
    minTime := Min(minTime0, s.ts);
    maxTime := Max(maxTime0, s.ts);
    if |batch| == maxSamples {
      attempts := attempts + [Block(batch, minTime, maxTime)];
      if !blockOk(|attempts| - 1) {
        ok := false;
        return;
      }
      batch := [];
      minTime, maxTime := MaxInt64, MinInt64;
    }
  }

  /**
   * The result loop of `backfillRules`: the samples of one result vector are
   * added one by one; a failing block creation ends the loop at once.
   */
  method AddResults(rule: RecordingRule, v: seq<RawSample>, maxSamples: int, blockOk: BlockWriter,
                    attempts0: seq<Block>, batch0: seq<Sample>, minTime0: int64, maxTime0: int64)
    returns (attempts: seq<Block>, batch: seq<Sample>, minTime: int64, maxTime: int64, ok: bool)
    ensures Acc(attempts, batch, minTime, maxTime, ok) ==
      PushAll(Acc(attempts0, batch0, minTime0, maxTime0, true), Relabeled(rule, v), maxSamples, blockOk)
  {
    ghost var acc0 := Acc(attempts0, batch0, minTime0, maxTime0, true);
    ghost var out := Relabeled(rule, v);
    attempts, batch, minTime, maxTime, ok := attempts0, batch0, minTime0, maxTime0, true;
    var j := 0;
    while j < |v|
      invariant 0 <= j <= |v|
      invariant Acc(attempts, batch, minTime, maxTime, true) == PushAll(acc0, out[..j], maxSamples, blockOk)
    {
      PushAllNext(acc0, out, j, maxSamples, blockOk);
      attempts, batch, minTime, maxTime, ok := AddSample(rule, v[j], maxSamples, blockOk, attempts, batch, minTime, maxTime);
      if !ok {
        StopsAt(acc0, out, j + 1, maxSamples, blockOk);
        return;
      }
      j := j + 1;
    }
    assert out[..j] == out;
  }

  lemma {:induction false} ProducedAppend(rules: seq<RecordingRule>, a: seq<Query>, b: seq<Query>, query: QueryFunc)
    requires RulesIn(a, |rules|) && RulesIn(b, |rules|)
    ensures RulesIn(a + b, |rules|)
    ensures Produced(rules, a + b, query) == Produced(rules, a, query) + Produced(rules, b, query)
    decreases |b|
  {
    if b == [] {
      assert a + b == a;
    } else {
      var b', q := b[..|b| - 1], b[|b| - 1];
      assert b == b' + [q];
      AssocSnoc(a, b', q);
      assert RulesIn(b', |rules|);
      ProducedAppend(rules, a, b', query);
      ProducedSnoc(rules, a + b', q, query);
      ProducedSnoc(rules, b', q, query);
      AssocAppend(Produced(rules, a, query), Produced(rules, b', query), Outputs(rules[q.rule], query(q.rule, q.t)));
    }
  }

  /**
   * The instant loop of `backfillRules` for rule `i`: the rule is queried at
   * every instant of the window in order, a query error skipping only that
   * instant, and the samples of each result are batched. `calls` lists the
   * queries made; `ok` is false when a block creation failed, which ends the
   * loop at once.
   */
  method EvaluateRule(rules: seq<RecordingRule>, i: nat, start: int64, end: int64, interval: int64,
                      maxSamples: int, query: QueryFunc, blockOk: BlockWriter,
                      attempts0: seq<Block>, batch0: seq<Sample>, minTime0: int64, maxTime0: int64)
    returns (calls: seq<Query>, attempts: seq<Block>, batch: seq<Sample>, minTime: int64, maxTime: int64, ok: bool)
    requires i < |rules| && interval > 0
    ensures RulesIn(calls, |rules|)
    ensures Acc(attempts, batch, minTime, maxTime, ok) ==
      PushAll(Acc(attempts0, batch0, minTime0, maxTime0, true), Produced(rules, calls, query), maxSamples, blockOk)
    ensures ok ==> calls == RuleQueries(i, Instants(start, end, interval))
    ensures !ok ==> calls <= RuleQueries(i, Instants(start, end, interval))
    ensures !ok ==> StoppedBy(Acc(attempts0, batch0, minTime0, maxTime0, true), rules, calls, query, maxSamples, blockOk)
  {
    ghost var insts := Instants(start, end, interval);
    ghost var acc0 := Acc(attempts0, batch0, minTime0, maxTime0, true);
    calls, attempts, batch, minTime, maxTime, ok := [], attempts0, batch0, minTime0, maxTime0, true;
    var rule := rules[i];
    var t: int := start;
    ghost var done: seq<int64> := [];
    while t <= end
      invariant start <= t
      invariant insts == done + Instants(t, end, interval)
      invariant calls == RuleQueries(i, done) && RulesIn(calls, |rules|)
      invariant Acc(attempts, batch, minTime, maxTime, true) == PushAll(acc0, Produced(rules, calls, query), maxSamples, blockOk)
      decreases end - t
    {
      EvaluateStep(rules, i, insts, done, t, end, interval, calls, acc0, query, maxSamples, blockOk);
      var res := query(i, t as int64);
      ghost var before := calls;
      calls := calls + [Query(i, t as int64)];
      if res.Vector? {
        attempts, batch, minTime, maxTime, ok :=
          AddResults(rule, res.samples, maxSamples, blockOk, attempts, batch, minTime, maxTime);
        if !ok {
          assert calls[..|calls| - 1] == before;
          return;
        }
      }
      done := done + [t as int64];
      t := t + interval;
    }
    assert done == insts;
  }

  /** One step of the instant loop: the query at `t` is the next one of rule `i`, and its outputs are fed next. */
  lemma EvaluateStep(rules: seq<RecordingRule>, i: nat, insts: seq<int64>, done: seq<int64>, t: int, end: int64,
                     interval: int, calls: seq<Query>, acc0: Acc, query: QueryFunc, maxSamples: int, blockOk: BlockWriter)
    requires i < |rules| && interval > 0 && MinInt64 <= t <= end
    requires insts == done + Instants(t, end, interval)
    requires calls == RuleQueries(i, done) && RulesIn(calls, |rules|)
    ensures var q := Query(i, t as int64);
      insts == (done + [t as int64]) + Instants(t + interval, end, interval) &&
      calls + [q] == RuleQueries(i, done + [t as int64]) && RulesIn(calls + [q], |rules|) &&
      calls + [q] <= RuleQueries(i, insts) &&
      PushAll(acc0, Produced(rules, calls + [q], query), maxSamples, blockOk) ==
        PushAll(PushAll(acc0, Produced(rules, calls, query), maxSamples, blockOk),
                Outputs(rules[i], query(i, t as int64)), maxSamples, blockOk)
  {
    var q := Query(i, t as int64);
    InstantsStep(insts, done, t, end, interval);
    RuleQueriesSnoc(i, done, q.t);
    RuleQueriesPrefix(i, done + [q.t], insts);
    ProducedSnoc(rules, calls, q, query);
    PushAllAppend(acc0, Produced(rules, calls, query), Outputs(rules[i], query(i, q.t)), maxSamples, blockOk);
  }

  lemma RuleQueriesPrefix(i: nat, a: seq<int64>, b: seq<int64>)
    requires a <= b
    ensures RuleQueries(i, a) <= RuleQueries(i, b)
  {
  }

  /**
   * The rule loop of `backfillRules`: the rules are evaluated in order, and a
   * failing block creation ends the loop at once. `queried` lists the queries
   * made, and the accumulator has been fed exactly their outputs.
   */
  method EvaluateRules(rules: seq<RecordingRule>, start: int64, end: int64, interval: int64,
                       maxSamples: int, query: QueryFunc, blockOk: BlockWriter)
    returns (queried: seq<Query>, attempts: seq<Block>, batch: seq<Sample>, minTime: int64, maxTime: int64, ok: bool)
    requires interval > 0
    ensures RulesIn(queried, |rules|)
    ensures Acc(attempts, batch, minTime, maxTime, ok) ==
      PushAll(Init(), Produced(rules, queried, query), maxSamples, blockOk)
    ensures ok ==> queried == Schedule(|rules|, Instants(start, end, interval))
    ensures !ok ==> queried <= Schedule(|rules|, Instants(start, end, interval))
    ensures !ok ==> StoppedBy(Init(), rules, queried, query, maxSamples, blockOk)
  {
    ghost var insts := Instants(start, end, interval);
    queried, attempts, batch, minTime, maxTime, ok := [], [], [], MaxInt64, MinInt64, true;
    var i := 0;
    while i < |rules|
      invariant 0 <= i <= |rules|
      invariant queried == Schedule(i, insts) && RulesIn(queried, |rules|)
      invariant Acc(attempts, batch, minTime, maxTime, true) == PushAll(Init(), Produced(rules, queried, query), maxSamples, blockOk)
    {
      var calls;
      calls, attempts, batch, minTime, maxTime, ok :=
        EvaluateRule(rules, i, start, end, interval, maxSamples, query, blockOk, attempts, batch, minTime, maxTime);
      RulesStep(rules, i, insts, queried, calls, query, maxSamples, blockOk);
      if !ok {
        RulesStop(rules, queried, calls, query, maxSamples, blockOk);
        queried := queried + calls;
        return;
      }
      queried := queried + calls;
      i := i + 1;
    }
  }

  /** One step of the rule loop: rule `i`'s queries follow those of the rules before it. */
  lemma RulesStep(rules: seq<RecordingRule>, i: nat, insts: seq<int64>, queried: seq<Query>, calls: seq<Query>,
                  query: QueryFunc, maxSamples: int, blockOk: BlockWriter)
    requires i < |rules| && queried == Schedule(i, insts) && RulesIn(queried, |rules|) && RulesIn(calls, |rules|)
    requires calls <= RuleQueries(i, insts)
    ensures RulesIn(queried + calls, |rules|)
    ensures PushAll(Init(), Produced(rules, queried + calls, query), maxSamples, blockOk) ==
      PushAll(PushAll(Init(), Produced(rules, queried, query), maxSamples, blockOk), Produced(rules, calls, query), maxSamples, blockOk)
    ensures queried + calls <= Schedule(|rules|, insts)
    ensures calls == RuleQueries(i, insts) ==> queried + calls == Schedule(i + 1, insts)
  {
    ProducedAppend(rules, queried, calls, query);
    PushAllAppend(Init(), Produced(rules, queried, query), Produced(rules, calls, query), maxSamples, blockOk);
    SchedulePrefixAt(i, |rules|, insts, calls);
  }

  /** A rule's queries that stopped the accumulator stop the whole run with the same last query. */
  lemma RulesStop(rules: seq<RecordingRule>, queried: seq<Query>, calls: seq<Query>, query: QueryFunc,
                  maxSamples: int, blockOk: BlockWriter)
    requires RulesIn(queried, |rules|)
    requires StoppedBy(PushAll(Init(), Produced(rules, queried, query), maxSamples, blockOk), rules, calls, query, maxSamples, blockOk)
    ensures StoppedBy(Init(), rules, queried + calls, query, maxSamples, blockOk)
  {
    var calls' := calls[..|calls| - 1];
    assert (queried + calls)[..|queried + calls| - 1] == queried + calls';
    assert RulesIn(calls', |rules|);
    ProducedAppend(rules, queried, calls', query);
    PushAllAppend(Init(), Produced(rules, queried, query), Produced(rules, calls', query), maxSamples, blockOk);
    ProducedAppend(rules, queried, calls, query);
    PushAllAppend(Init(), Produced(rules, queried, query), Produced(rules, calls, query), maxSamples, blockOk);
  }

  /**
   * `backfillRules`. Each rule, in order, is queried at every instant of the
   * window; a query error skips only that instant. Each result sample is
   * relabelled and added to the batch, whose running bounds are kept; when
   * the batch holds `maxSamples` samples a block is created and the batch
   * reset, and a failing block creation ends the run at once. A non-empty
   * remainder is flushed at the end.
   *
   * `queried` lists the query calls made and `attempts` the block-creation
   * calls made, the last of which failed when `completed` is false. The run
   * makes exactly the calls of the reference batching up to its first
   * failing one, and completes exactly when none fails; a run stopped by a
   * failing block creation made no query after the one whose outputs filled
   * that block.
   */
  method BackfillRules(rules: seq<RecordingRule>, tr: TimeRange, interval: int64, maxSamples: int,
                       query: QueryFunc, blockOk: BlockWriter)
    returns (queried: seq<Query>, attempts: seq<Block>, completed: bool)
    requires interval > 0
    ensures Outcome(rules, tr, interval, maxSamples, query, blockOk, queried, attempts, completed)
  {
    var batch, minTime, maxTime, ok;
    queried, attempts, batch, minTime, maxTime, ok :=
      EvaluateRules(rules, tr.start, tr.end, interval, maxSamples, query, blockOk);
    ghost var r := Acc(attempts, batch, minTime, maxTime, ok);
    completed := ok;
    if ok && |batch| > 0 {
      attempts := attempts + [Block(batch, minTime, maxTime)];
      completed := blockOk(|attempts| - 1);
    }
    Conclude(rules, tr, interval, maxSamples, query, blockOk, queried, r, attempts, completed);
  }

  /**
   * What a run promises against the reference: it completes exactly when no
   * block creation of the reference batching fails; a completed run made all
   * the planned queries and created exactly the reference blocks; a run that
   * did not complete created the reference blocks up to and including the
   * first failing one, and made a prefix of the planned queries: either all
   * of them, the accumulator still running after their outputs, when only
   * the final flush failed, or those up to the one whose
   * outputs made a block creation fail, and no query after it.
   */
  ghost predicate Outcome(rules: seq<RecordingRule>, tr: TimeRange, interval: int, maxSamples: int, query: QueryFunc,
                          blockOk: BlockWriter, queried: seq<Query>, attempts: seq<Block>, completed: bool)
    requires interval > 0
  {
    var expected := Expected(rules, tr, interval, maxSamples, query);
    var plan := Plan(rules, tr, interval);
    (completed <==> forall k :: 0 <= k < |expected| ==> blockOk(k)) &&
    (completed ==> queried == plan && attempts == expected) &&
    (!completed ==>
       0 < |attempts| <= |expected| && attempts == expected[..|attempts|] &&
       !blockOk(|attempts| - 1) && (forall k :: 0 <= k < |attempts| - 1 ==> blockOk(k)) &&
       queried <= plan &&
       ((queried == plan && RulesIn(plan, |rules|) && PushAll(Init(), Produced(rules, plan, query), maxSamples, blockOk).ok) ||
        StoppedBy(Init(), rules, queried, query, maxSamples, blockOk)))
  }

  /** The rule loop's final state followed by the final flush is the promised outcome. */
  lemma Conclude(rules: seq<RecordingRule>, tr: TimeRange, interval: int, maxSamples: int, query: QueryFunc,
                 blockOk: BlockWriter, queried: seq<Query>, r: Acc, attempts: seq<Block>, completed: bool)
    requires interval > 0 && RulesIn(queried, |rules|)
    requires r == PushAll(Init(), Produced(rules, queried, query), maxSamples, blockOk)
    requires r.ok ==> queried == Schedule(|rules|, Instants(tr.start, tr.end, interval))
    requires !r.ok ==> queried <= Schedule(|rules|, Instants(tr.start, tr.end, interval))
    requires !r.ok ==> StoppedBy(Init(), rules, queried, query, maxSamples, blockOk)
    requires attempts == r.attempts + (if r.ok && r.batch != [] then [Block(r.batch, r.minTime, r.maxTime)] else [])
    requires completed == (r.ok && (r.batch != [] ==> blockOk(|r.attempts|)))
    ensures Outcome(rules, tr, interval, maxSamples, query, blockOk, queried, attempts, completed)
  {
    var plan := Plan(rules, tr, interval);
    ScheduleRules(|rules|, Instants(tr.start, tr.end, interval));
    var produced := Produced(rules, plan, query);
    if !r.ok {
      StoppedRun(rules, queried, plan, query, maxSamples, blockOk);
    }
    FlushOutcome(produced, maxSamples, blockOk, r, attempts, completed);
    assert Expected(rules, tr, interval, maxSamples, query) == Chunks(produced, maxSamples);
  }

  /** A run stopped after the queries `done` of the plan ends where the whole plan would. */
  lemma StoppedRun(rules: seq<RecordingRule>, done: seq<Query>, plan: seq<Query>, query: QueryFunc,
                   maxSamples: int, blockOk: BlockWriter)
    requires done <= plan && RulesIn(plan, |rules|)
    requires RulesIn(done, |rules|) && !PushAll(Init(), Produced(rules, done, query), maxSamples, blockOk).ok
    ensures PushAll(Init(), Produced(rules, plan, query), maxSamples, blockOk) ==
      PushAll(Init(), Produced(rules, done, query), maxSamples, blockOk)
  {
    ProducedPrefix(rules, done, plan, query);
    var p, q := Produced(rules, done, query), Produced(rules, plan, query);
    assert q[..|p|] == p;
    StopsAt(Init(), q, |p|, maxSamples, blockOk);
  }
}
