/**
 * Time-range resolution (`getTimeRange`): the evaluation window is the
 * storage's own range, narrowed by the optional --start and --end overrides
 * and never widened beyond what storage holds.
 */
module TimeRanges {
  import opened Base

  /** A --start or --end argument after time parsing: absent, a millisecond timestamp, or unparsable text. */
  datatype TimeArg = Unset | Given(ms: int64) | Malformed(text: string)

  /** The resolved, inclusive evaluation window in milliseconds. */
  datatype TimeRange = TimeRange(start: int64, end: int64)

  datatype RangeError = BadStart(text: string) | BadEnd(text: string) | StartAfterEnd

  /** What the storage reports: the head's (min, max) timestamps and the min timestamp of each persisted block. */
  datatype Storage = Storage(headMin: int64, headMax: int64, blockMins: seq<int64>)

  /** The least timestamp of the head and of all blocks. */
  function LowerBound(headMin: int64, blockMins: seq<int64>): (m: int64)
    ensures m <= headMin
    ensures forall k :: 0 <= k < |blockMins| ==> m <= blockMins[k]
    ensures m == headMin || exists k :: 0 <= k < |blockMins| && m == blockMins[k]
  {
    if blockMins == [] then headMin
    else Min(LowerBound(headMin, blockMins[..|blockMins| - 1]), blockMins[|blockMins| - 1])
  }

  /** The resolved start: an absent start is the storage's lower bound, and an earlier one is raised to it. */
  function ClampStart(arg: TimeArg, lower: int64): (t: int64)
    requires !arg.Malformed?
    ensures lower <= t
    ensures arg.Unset? ==> t == lower
    ensures arg.Given? && arg.ms < lower ==> t == lower
    ensures arg.Given? && lower <= arg.ms ==> t == arg.ms
  {
    match arg
    case Unset => lower
    case Given(ms) => if ms < lower then lower else ms
  }

  /** The resolved end: an absent end is the storage's upper bound, and a later one is lowered to it. */
  function ClampEnd(arg: TimeArg, upper: int64): (t: int64)
    requires !arg.Malformed?
    ensures t <= upper
    ensures arg.Unset? ==> t == upper
    ensures arg.Given? && upper < arg.ms ==> t == upper
    ensures arg.Given? && arg.ms <= upper ==> t == arg.ms
  {
    match arg
    case Unset => upper
    case Given(ms) => if ms > upper then upper else ms
  }

  /**
   * Reference resolution. A malformed start is reported first, then a
   * malformed end; otherwise a window results exactly when the clamped start
   * is not after the clamped end, and it lies inside [lower bound, head max].
   */
  function Resolve(storage: Storage, start: TimeArg, end: TimeArg): (r: Result<TimeRange, RangeError>)
    ensures start.Malformed? ==> r == Err(BadStart(start.text))
    ensures !start.Malformed? && end.Malformed? ==> r == Err(BadEnd(end.text))
    ensures var lower := LowerBound(storage.headMin, storage.blockMins);
      r.Ok? <==> !start.Malformed? && !end.Malformed? && ClampStart(start, lower) <= ClampEnd(end, storage.headMax)
    ensures r.Ok? ==>
      LowerBound(storage.headMin, storage.blockMins) <= r.value.start <= r.value.end <= storage.headMax
    ensures r.Ok? ==> (start.Given? && start.ms >= LowerBound(storage.headMin, storage.blockMins) ==> r.value.start == start.ms)
    ensures r.Ok? ==> (end.Given? && end.ms <= storage.headMax ==> r.value.end == end.ms)
    ensures r.Ok? ==>
      r.value == TimeRange(ClampStart(start, LowerBound(storage.headMin, storage.blockMins)), ClampEnd(end, storage.headMax))
  {
    if start.Malformed? then Err(BadStart(start.text))
    else if end.Malformed? then Err(BadEnd(end.text))
    else
      var s := ClampStart(start, LowerBound(storage.headMin, storage.blockMins));
      var e := ClampEnd(end, storage.headMax);
      if s > e then Err(StartAfterEnd) else Ok(TimeRange(s, e))
  }

  /** `getTimeRange` over the storage's reported bounds and the parsed overrides. */
  method GetTimeRange(storage: Storage, start: TimeArg, end: TimeArg) returns (r: Result<TimeRange, RangeError>)
    ensures r == Resolve(storage, start, end)
    ensures r.Ok? ==> r.value.start <= r.value.end
  {
    var minTime, maxTime := storage.headMin, storage.headMax;
    for k := 0 to |storage.blockMins|
      invariant minTime == LowerBound(storage.headMin, storage.blockMins[..k])
    {
      assert storage.blockMins[..k + 1][..k] == storage.blockMins[..k];
      minTime := Min(minTime, storage.blockMins[k]);
    }
    assert storage.blockMins[..|storage.blockMins|] == storage.blockMins;

    var stime, etime: int64;
    match start {
      case Malformed(text) => return Err(BadStart(text));
      case Given(ms) =>
        stime := ms;
        if stime < minTime {
          stime := minTime;
        }
      case Unset =>
        stime := minTime;
    }
    match end {
      case Malformed(text) => return Err(BadEnd(text));
      case Given(ms) =>
        etime := ms;
        if etime > maxTime {
          etime := maxTime;
        }
      case Unset =>
        etime := maxTime;
    }
    if stime > etime {
      return Err(StartAfterEnd);
    }
    return Ok(TimeRange(stime, etime));
  }
}
