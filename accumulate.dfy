/**
 * The batch accumulator of `backfillRules` as a state machine: each output
 * sample is appended to the batch and folded into its running bounds, and a
 * batch that reaches `maxSamples` samples is handed to block creation and
 * reset. A failing block creation stops the accumulator for good.
 */
module Accumulate {
  import opened Base
  import opened Relabel
  import opened Batching

  /**
   * The accumulator: the block-creation calls made so far, the current batch
   * with its running bounds, and whether every block creation succeeded.
   */
  datatype Acc = Acc(attempts: seq<Block>, batch: seq<Sample>, minTime: int64, maxTime: int64, ok: bool)

  /** The state before the first sample: an empty batch with the sentinel bounds. */
  function Init(): Acc
  {
    Acc([], [], MaxInt64, MinInt64, true)
  }

  /** One sample arrives; `blockOk(k)` says whether the `k`-th block creation succeeds. */
  function Push(a: Acc, s: Sample, maxSamples: int, blockOk: nat -> bool): Acc
  {
    if !a.ok then a
    else
      var batch := a.batch + [s];
      var minTime := Min(a.minTime, s.ts);
      var maxTime := Max(a.maxTime, s.ts);
      if |batch| == maxSamples then
        var attempts := a.attempts + [Block(batch, minTime, maxTime)];
        if blockOk(|attempts| - 1) then Acc(attempts, [], MaxInt64, MinInt64, true)
        else Acc(attempts, batch, minTime, maxTime, false)
      else Acc(a.attempts, batch, minTime, maxTime, true)
  }

  /** The samples `xs` arrive in order. */
  function PushAll(a: Acc, xs: seq<Sample>, maxSamples: int, blockOk: nat -> bool): Acc
  {
    if xs == [] then a
    else Push(PushAll(a, xs[..|xs| - 1], maxSamples, blockOk), xs[|xs| - 1], maxSamples, blockOk)
  }

  lemma PushAllSnoc(a: Acc, xs: seq<Sample>, x: Sample, maxSamples: int, blockOk: nat -> bool)
    ensures PushAll(a, xs + [x], maxSamples, blockOk) == Push(PushAll(a, xs, maxSamples, blockOk), x, maxSamples, blockOk)
  {
    assert (xs + [x])[..|xs|] == xs;
  }

  /** A stopped accumulator ignores every further sample. */
  lemma {:induction false} PushAllIdle(a: Acc, xs: seq<Sample>, maxSamples: int, blockOk: nat -> bool)
    requires !a.ok
    ensures PushAll(a, xs, maxSamples, blockOk) == a
    decreases |xs|
  {
    if xs != [] {
      PushAllIdle(a, xs[..|xs| - 1], maxSamples, blockOk);
    }
  }

  /** Feeding two runs of samples one after the other is feeding their concatenation. */
  lemma {:induction false} PushAllAppend(a: Acc, xs: seq<Sample>, ys: seq<Sample>, maxSamples: int, blockOk: nat -> bool)
    ensures PushAll(a, xs + ys, maxSamples, blockOk) == PushAll(PushAll(a, xs, maxSamples, blockOk), ys, maxSamples, blockOk)
    decreases |ys|
  {
    if ys == [] {
      assert xs + ys == xs;
    } else {
      var ys', y := ys[..|ys| - 1], ys[|ys| - 1];
      assert ys == ys' + [y];
      AssocSnoc(xs, ys', y);
      PushAllAppend(a, xs, ys', maxSamples, blockOk);
      PushAllSnoc(a, xs + ys', y, maxSamples, blockOk);
      PushAllSnoc(PushAll(a, xs, maxSamples, blockOk), ys', y, maxSamples, blockOk);
    }
  }

  /** An accumulator stopped by a prefix of the samples ends in that state. */
  lemma StopsAt(a: Acc, xs: seq<Sample>, j: nat, maxSamples: int, blockOk: nat -> bool)
    requires j <= |xs| && !PushAll(a, xs[..j], maxSamples, blockOk).ok
    ensures PushAll(a, xs, maxSamples, blockOk) == PushAll(a, xs[..j], maxSamples, blockOk)
  {
    assert xs == xs[..j] + xs[j..];
    PushAllAppend(a, xs[..j], xs[j..], maxSamples, blockOk);
    PushAllIdle(PushAll(a, xs[..j], maxSamples, blockOk), xs[j..], maxSamples, blockOk);
  }

  /** One more sample of `xs` after its first `j`. */
  lemma PushAllNext(a: Acc, xs: seq<Sample>, j: nat, maxSamples: int, blockOk: nat -> bool)
    requires j < |xs|
    ensures PushAll(a, xs[..j + 1], maxSamples, blockOk) == Push(PushAll(a, xs[..j], maxSamples, blockOk), xs[j], maxSamples, blockOk)
  {
    assert xs[..j + 1] == xs[..j] + [xs[j]];
    PushAllSnoc(a, xs[..j], xs[j], maxSamples, blockOk);
  }

  /**
   * A running accumulator: every block so far holds exactly `maxSamples`
   * samples with their true bounds and was created successfully, the batch is
   * below the threshold, and the running bounds are those of the batch.
   */
  ghost predicate Accumulated(a: Acc, maxSamples: int, blockOk: nat -> bool)
  {
    a.ok && AllFull(a.attempts, maxSamples) &&
    (forall k :: 0 <= k < |a.attempts| ==> blockOk(k)) &&
    (maxSamples > 0 ==> |a.batch| < maxSamples) &&
    a.minTime == MinTs(a.batch) && a.maxTime == MaxTs(a.batch)
  }

  /** A stopped accumulator: its last block creation, of a full block, failed and all earlier ones succeeded. */
  ghost predicate Failed(a: Acc, maxSamples: int, blockOk: nat -> bool)
  {
    !a.ok && AllFull(a.attempts, maxSamples) && 0 < |a.attempts| &&
    !blockOk(|a.attempts| - 1) && (forall k :: 0 <= k < |a.attempts| - 1 ==> blockOk(k))
  }

  /** One sample keeps the accumulator running or stops it, and no sample is lost. */
  lemma PushSpec(a: Acc, s: Sample, maxSamples: int, blockOk: nat -> bool)
    requires Accumulated(a, maxSamples, blockOk)
    ensures var r := Push(a, s, maxSamples, blockOk);
      (r.ok ==> Accumulated(r, maxSamples, blockOk) &&
                Samples(r.attempts) + r.batch == Samples(a.attempts) + a.batch + [s]) &&
      (!r.ok ==> Failed(r, maxSamples, blockOk) &&
                 Samples(r.attempts) == Samples(a.attempts) + a.batch + [s])
  {
    var batch := a.batch + [s];
    BoundsSnoc(a.batch, s);
    AssocSnoc(Samples(a.attempts), a.batch, s);
    if |batch| == maxSamples {
      FlushSpec(a.attempts, Block(batch, Min(a.minTime, s.ts), Max(a.maxTime, s.ts)), maxSamples, blockOk);
    }
  }

  lemma FlushSpec(attempts: seq<Block>, b: Block, maxSamples: int, blockOk: nat -> bool)
    requires AllFull(attempts, maxSamples) && (forall k :: 0 <= k < |attempts| ==> blockOk(k))
    requires 0 < maxSamples && |b.samples| == maxSamples && b == MakeBlock(b.samples)
    ensures AllFull(attempts + [b], maxSamples) && Samples(attempts + [b]) == Samples(attempts) + b.samples
    ensures forall k :: 0 <= k < |attempts + [b]| - 1 ==> blockOk(k)
    ensures blockOk(|attempts|) ==> forall k :: 0 <= k < |attempts + [b]| ==> blockOk(k)
  {
    SamplesSnoc(attempts, b);
    assert forall k :: 0 <= k < |attempts| ==> (attempts + [b])[k] == attempts[k];
  }

  /**
   * Whatever the samples, a running accumulator either keeps running with all
   * of them accounted for in its blocks and its batch, or stops after a failed
   * block creation whose blocks begin those samples.
   */
  lemma {:induction false} PushAllSpec(a: Acc, xs: seq<Sample>, maxSamples: int, blockOk: nat -> bool)
    requires Accumulated(a, maxSamples, blockOk)
    ensures var r := PushAll(a, xs, maxSamples, blockOk);
      (r.ok ==> Accumulated(r, maxSamples, blockOk) &&
                Samples(r.attempts) + r.batch == Samples(a.attempts) + a.batch + xs) &&
      (!r.ok ==> Failed(r, maxSamples, blockOk) &&
                 Samples(r.attempts) <= Samples(a.attempts) + a.batch + xs)
    decreases |xs|
  {
    if xs == [] {
      assert Samples(a.attempts) + a.batch + xs == Samples(a.attempts) + a.batch;
    } else {
      var base := Samples(a.attempts) + a.batch;
      var xs', x := xs[..|xs| - 1], xs[|xs| - 1];
      assert xs == xs' + [x];
      AssocSnoc(base, xs', x);
      PushAllSpec(a, xs', maxSamples, blockOk);
      var r' := PushAll(a, xs', maxSamples, blockOk);
      if r'.ok {
        PushSpec(r', x, maxSamples, blockOk);
      } else {
        PrefixAppend(base, xs', xs);
      }
    }
  }

  /** Blocks whose samples begin `produced` are the first blocks of its reference batching. */
  lemma AbortOutcome(attempts: seq<Block>, produced: seq<Sample>, maxSamples: int)
    requires AllFull(attempts, maxSamples) && Samples(attempts) <= produced
    ensures |attempts| <= |Chunks(produced, maxSamples)|
    ensures Chunks(produced, maxSamples)[..|attempts|] == attempts
  {
    var rest := produced[|Samples(attempts)|..];
    assert produced == Samples(attempts) + rest;
    ChunksAfterFull(attempts, rest, maxSamples);
  }

  /** Full blocks followed by a short remainder are the reference batching, the remainder making the last block. */
  lemma FinalOutcome(attempts: seq<Block>, batch: seq<Sample>, produced: seq<Sample>, maxSamples: int)
    requires AllFull(attempts, maxSamples) && Samples(attempts) + batch == produced
    requires maxSamples > 0 ==> |batch| < maxSamples
    ensures Chunks(produced, maxSamples) == attempts + (if batch == [] then [] else [MakeBlock(batch)])
  {
    ChunksAfterFull(attempts, batch, maxSamples);
    if batch == [] {
      assert attempts + [] == attempts;
    }
  }

  /**
   * The accumulator against the reference batching of the samples `xs`: when
   * it is still running, its blocks and its remaining batch (if any) are
   * exactly the reference blocks; when it stopped, its blocks are the first
   * reference blocks, the last of them the first whose creation failed.
   */
  lemma RunOutcome(xs: seq<Sample>, maxSamples: int, blockOk: nat -> bool)
    ensures var r := PushAll(Init(), xs, maxSamples, blockOk);
      var c := Chunks(xs, maxSamples);
      (r.ok ==> (forall k :: 0 <= k < |r.attempts| ==> blockOk(k)) &&
                c == r.attempts + (if r.batch == [] then [] else [Block(r.batch, r.minTime, r.maxTime)])) &&
      (!r.ok ==> 0 < |r.attempts| <= |c| && c[..|r.attempts|] == r.attempts &&
                 !blockOk(|r.attempts| - 1) && (forall k :: 0 <= k < |r.attempts| - 1 ==> blockOk(k)))
  {
    var r := PushAll(Init(), xs, maxSamples, blockOk);
    assert Samples([]) + [] + xs == xs;
    PushAllSpec(Init(), xs, maxSamples, blockOk);
    if r.ok {
      FinalOutcome(r.attempts, r.batch, xs, maxSamples);
    } else {
      AbortOutcome(r.attempts, xs, maxSamples);
    }
  }

  /**
   * The final flush after the samples `xs`: a running accumulator hands a
   * non-empty remainder to block creation. The blocks created are the
   * reference blocks up to and including the first failing one, and the run
   * completes exactly when no reference block creation fails.
   */
  lemma FlushOutcome(xs: seq<Sample>, maxSamples: int, blockOk: nat -> bool, r: Acc, attempts: seq<Block>, completed: bool)
    requires r == PushAll(Init(), xs, maxSamples, blockOk)
    requires attempts == r.attempts + (if r.ok && r.batch != [] then [Block(r.batch, r.minTime, r.maxTime)] else [])
    requires completed == (r.ok && (r.batch != [] ==> blockOk(|r.attempts|)))
    ensures var c := Chunks(xs, maxSamples);
      (completed <==> forall k :: 0 <= k < |c| ==> blockOk(k)) &&
      (completed ==> attempts == c) &&
      (!completed ==> 0 < |attempts| <= |c| && attempts == c[..|attempts|] &&
                      !blockOk(|attempts| - 1) && (forall k :: 0 <= k < |attempts| - 1 ==> blockOk(k)))
  {
    RunOutcome(xs, maxSamples, blockOk);
    var c := Chunks(xs, maxSamples);
    if !r.ok {
      assert attempts == r.attempts + [];
      FailedRun(r.attempts, c, blockOk);
    } else if r.batch != [] {
      FlushRun(r.attempts, Block(r.batch, r.minTime, r.maxTime), c, blockOk);
    } else {
      assert attempts == r.attempts + [];
    }
  }

  /** A run whose last block creation failed did not complete. */
  lemma FailedRun(attempts: seq<Block>, expected: seq<Block>, blockOk: nat -> bool)
    requires 0 < |attempts| <= |expected| && !blockOk(|attempts| - 1)
    ensures !(forall k :: 0 <= k < |expected| ==> blockOk(k))
  {
    assert |attempts| - 1 < |expected|;
  }

  /** After successful blocks, the final flush decides whether the run completes. */
  lemma FlushRun(full: seq<Block>, last: Block, expected: seq<Block>, blockOk: nat -> bool)
    requires expected == full + [last] && forall k :: 0 <= k < |full| ==> blockOk(k)
    ensures blockOk(|full|) <==> forall k :: 0 <= k < |expected| ==> blockOk(k)
  {
    assert |full| < |expected|;
  }
}
