/**
 * Shared vocabulary of the backfiller model: Go's 64-bit integers (used for
 * millisecond timestamps and durations), the `min`/`max` helpers of main.go,
 * label sets and a result type for the error returns.
 */
module Base {

  const MinInt64: int := -0x8000_0000_0000_0000
  const MaxInt64: int := 0x7fff_ffff_ffff_ffff

  /** Go's `int64`. */
  type int64 = x: int | MinInt64 <= x <= MaxInt64

  /** The bit pattern of a Go `float64` sample value; the backfiller only copies it. */
  type Float64Bits = bv64

  /** A label set, keyed by label name. */
  type Labels = map<string, string>

  /** The reserved label that carries a series' metric name. */
  const MetricName: string := "__name__"

  datatype Result<T, E> = Ok(value: T) | Err(error: E)

  /** `max` of main.go: the larger of two int64 values. */
  function Max(a: int64, b: int64): (r: int64)
    ensures a <= r && b <= r
    ensures r == a || r == b
  {
    if a > b then a else b
  }

  /** `min` of main.go: the smaller of two int64 values. */
  function Min(a: int64, b: int64): (r: int64)
    ensures r <= a && r <= b
    ensures r == a || r == b
  {
    if a > b then b else a
  }

  // Sequence identities used by the proofs of the other modules.

  lemma AssocSnoc<T>(a: seq<T>, b: seq<T>, x: T)
    ensures a + (b + [x]) == (a + b) + [x]
  {
  }

  lemma AssocAppend<T>(a: seq<T>, b: seq<T>, c: seq<T>)
    ensures a + (b + c) == (a + b) + c
  {
  }

  lemma PrefixAppend<T>(a: seq<T>, p: seq<T>, s: seq<T>)
    requires p <= s
    ensures a + p <= a + s
  {
  }

  lemma SplitAt<T>(a: seq<T>, r: seq<T>, b: seq<T>, j: nat)
    requires j <= |r|
    ensures a + (r + b) == (a + r[..j]) + (r[j..] + b)
  {
    assert r == r[..j] + r[j..];
  }

  lemma ConsSplit<T>(s: seq<T>, c: seq<T>)
    requires s != []
    ensures [s[0]] + (s[1..] + c) == s + c
  {
    assert s == [s[0]] + s[1..];
  }

  lemma ShiftOne<T>(a: seq<T>, x: T, r: seq<T>)
    ensures a + ([x] + r) == (a + [x]) + r
    ensures a + [x] <= a + ([x] + r)
  {
  }

  /**
   * Go's `+` on `int64`: the mathematical sum wrapped into the 64-bit two's
   * complement range.
   */
  function WrapAdd(a: int64, b: int64): (r: int64)
    ensures MinInt64 <= a + b <= MaxInt64 ==> r == a + b
    ensures a + b > MaxInt64 ==> r == a + b - 0x1_0000_0000_0000_0000
    ensures a + b < MinInt64 ==> r == a + b + 0x1_0000_0000_0000_0000
  {
    (a + b - MinInt64) % 0x1_0000_0000_0000_0000 + MinInt64
  }
}
