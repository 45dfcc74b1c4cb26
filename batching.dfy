/**
 * The batch accumulator of `backfillRules` and its reference behaviour: the
 * produced samples are cut into blocks of `maxSamples` samples, each block
 * carrying the true minimum and maximum timestamp of its own samples.
 */
module Batching {
  import opened Base
  import opened Relabel

  /** One `CreateBlock` call: the samples and the (minT, maxT) passed with them. */
  datatype Block = Block(samples: seq<Sample>, minT: int64, maxT: int64)

  /** The running minimum, folded from the MaxInt64 sentinel as the batch grows. */
  function MinTs(s: seq<Sample>): int64
  {
    if s == [] then MaxInt64 else Min(MinTs(s[..|s| - 1]), s[|s| - 1].ts)
  }

  /** The running maximum, folded from the MinInt64 sentinel as the batch grows. */
  function MaxTs(s: seq<Sample>): int64
  {
    if s == [] then MinInt64 else Max(MaxTs(s[..|s| - 1]), s[|s| - 1].ts)
  }

  /**
   * Whatever the arrival order, the running bounds of a non-empty batch are
   * its true minimum and maximum timestamp; an empty batch has the sentinels.
   */
  lemma {:induction false} BoundsSpec(s: seq<Sample>)
    ensures s == [] ==> MinTs(s) == MaxInt64 && MaxTs(s) == MinInt64
    ensures forall k :: 0 <= k < |s| ==> MinTs(s) <= s[k].ts <= MaxTs(s)
    ensures s != [] ==> exists k :: 0 <= k < |s| && MinTs(s) == s[k].ts
    ensures s != [] ==> exists k :: 0 <= k < |s| && MaxTs(s) == s[k].ts
    decreases |s|
  {
    if s != [] {
      var init := s[..|s| - 1];
      BoundsSpec(init);
      assert forall k :: 0 <= k < |init| ==> init[k] == s[k];
      if init != [] {
        var i :| 0 <= i < |init| && MinTs(init) == init[i].ts;
        var j :| 0 <= j < |init| && MaxTs(init) == init[j].ts;
        if MinTs(s) != s[|s| - 1].ts {
          assert MinTs(s) == s[i].ts;
        }
        if MaxTs(s) != s[|s| - 1].ts {
          assert MaxTs(s) == s[j].ts;
        }
      }
    }
  }

  lemma BoundsSnoc(s: seq<Sample>, x: Sample)
    ensures MinTs(s + [x]) == Min(MinTs(s), x.ts) && MaxTs(s + [x]) == Max(MaxTs(s), x.ts)
  {
    assert (s + [x])[..|s|] == s;
  }

  /** The block for a batch, with its bounds as the running fold computes them. */
  function MakeBlock(s: seq<Sample>): Block
  {
    Block(s, MinTs(s), MaxTs(s))
  }

  /** The samples of a sequence of blocks, in order. */
  function Samples(bs: seq<Block>): seq<Sample>
  {
    if bs == [] then [] else bs[0].samples + Samples(bs[1..])
  }

  /**
   * Reference batching: `s` cut into consecutive blocks of `m` samples, the
   * last one possibly shorter; with `m <= 0` no batch ever reaches the
   * threshold and everything goes into one final block. No block is empty.
   */
  function Chunks(s: seq<Sample>, m: int): seq<Block>
    decreases |s|
  {
    if s == [] then []
    else if m <= 0 || |s| <= m then [MakeBlock(s)]
    else [MakeBlock(s[..m])] + Chunks(s[m..], m)
  }

  /** Every block of `bs` holds exactly `m` samples and carries its samples' true bounds. */
  ghost predicate AllFull(bs: seq<Block>, m: int)
  {
    forall k :: 0 <= k < |bs| ==> 0 < m && |bs[k].samples| == m && bs[k] == MakeBlock(bs[k].samples)
  }

  lemma {:induction false} SamplesSnoc(bs: seq<Block>, b: Block)
    ensures Samples(bs + [b]) == Samples(bs) + b.samples
    decreases |bs|
  {
    if bs == [] {
      assert [] + [b] == [b];
      assert [b][1..] == [];
    } else {
      assert (bs + [b])[1..] == bs[1..] + [b];
      SamplesSnoc(bs[1..], b);
    }
  }

  /** No sample is lost, duplicated or reordered by batching. */
  lemma {:induction false} ChunksCover(s: seq<Sample>, m: int)
    ensures Samples(Chunks(s, m)) == s
    decreases |s|
  {
    if s != [] && !(m <= 0 || |s| <= m) {
      ChunksCover(s[m..], m);
      assert s == s[..m] + s[m..];
    } else if s != [] {
      assert [MakeBlock(s)][1..] == [];
    }
  }

  /**
   * The shape of the batching: no block is empty, each carries the true
   * bounds of its own samples, every block but the last holds exactly `m`
   * samples and the last at most `m`; with `m <= 0` there is at most one block.
   */
  lemma {:induction false} ChunksShape(s: seq<Sample>, m: int)
    ensures var c := Chunks(s, m);
      forall k :: 0 <= k < |c| ==> c[k].samples != [] && c[k] == MakeBlock(c[k].samples)
    ensures var c := Chunks(s, m);
      0 < m ==> forall k :: 0 <= k < |c| ==> |c[k].samples| <= m && (k < |c| - 1 ==> |c[k].samples| == m)
    ensures m <= 0 ==> |Chunks(s, m)| <= 1
    ensures s == [] <==> Chunks(s, m) == []
    decreases |s|
  {
    if s != [] && !(m <= 0 || |s| <= m) {
      ChunksShape(s[m..], m);
      var c := Chunks(s, m);
      var c' := Chunks(s[m..], m);
      assert c == [MakeBlock(s[..m])] + c';
      assert forall k :: 1 <= k < |c| ==> c[k] == c'[k - 1];
    }
  }

  lemma AllFullTail(bs: seq<Block>, m: int)
    requires AllFull(bs, m) && bs != []
    ensures AllFull(bs[1..], m)
    ensures |Samples(bs)| >= m > 0 && Samples(bs) == bs[0].samples + Samples(bs[1..])
  {
    forall k | 0 <= k < |bs[1..]|
      ensures 0 < m && |bs[1..][k].samples| == m && bs[1..][k] == MakeBlock(bs[1..][k].samples)
    {
      assert bs[1..][k] == bs[k + 1];
    }
    assert 0 < m && |bs[0].samples| == m;
    assert Samples(bs) == bs[0].samples + Samples(bs[1..]);
  }

  lemma FirstChunkFull(b: Block, tail: seq<Sample>, m: int)
    requires 0 < m && |b.samples| == m && b == MakeBlock(b.samples)
    ensures Chunks(b.samples + tail, m) == [b] + Chunks(tail, m)
  {
    var all := b.samples + tail;
    if tail == [] {
      assert all == b.samples;
    } else {
      assert all[..m] == b.samples;
      assert all[m..] == tail;
    }
  }

  lemma ChunksAfterFullStep(bs: seq<Block>, rest: seq<Sample>, m: int)
    requires bs != [] && 0 < m && |bs[0].samples| == m && bs[0] == MakeBlock(bs[0].samples)
    requires Chunks(Samples(bs[1..]) + rest, m) == bs[1..] + Chunks(rest, m)
    ensures Chunks(Samples(bs) + rest, m) == bs + Chunks(rest, m)
  {
    var tail := Samples(bs[1..]) + rest;
    assert Chunks(Samples(bs) + rest, m) == [bs[0]] + Chunks(tail, m) by {
      assert Samples(bs) + rest == bs[0].samples + tail;
      FirstChunkFull(bs[0], tail, m);
    }
    ConsSplit(bs, Chunks(rest, m));
  }

  /** Blocks already cut at the threshold are the first blocks of the reference batching. */
  lemma {:induction false} ChunksAfterFull(bs: seq<Block>, rest: seq<Sample>, m: int)
    requires AllFull(bs, m)
    ensures Chunks(Samples(bs) + rest, m) == bs + Chunks(rest, m)
    decreases |bs|
  {
    if bs == [] {
      assert Samples(bs) + rest == rest;
    } else {
      AllFullTail(bs, m);
      ChunksAfterFull(bs[1..], rest, m);
      ChunksAfterFullStep(bs, rest, m);
    }
  }
}
