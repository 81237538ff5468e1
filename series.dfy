/**
 * The time series and the window filter of the Graph component:
 * the time-frame table (`getNumDays`) and `data.slice(-numDays)`.
 */
module Series {
  import opened Wrappers

  /** One point of the series as the chart reads it: its `name` (the x-axis and
      tooltip label; `None` when the point has no such field) and its numeric `value`. */
  datatype Point = Point(name: Option<string>, value: real)

  /** JavaScript `a[i]` on an array: `undefined` for every index outside 0 .. |a|-1. */
  function At<T>(a: seq<T>, i: int): Option<T>
  {
    if 0 <= i < |a| then Some(a[i]) else None
  }

  /** JavaScript `a.slice(start)`: a negative start counts from the end and is
      clamped at 0, a non-negative start is clamped at the length. */
  function SliceFrom<T>(a: seq<T>, start: int): (r: seq<T>)
    ensures start < 0 ==> |r| == Min(|a|, -start)
    ensures 0 <= start ==> |r| == Max(|a| - start, 0)
    ensures |r| <= |a| && r == a[|a| - |r|..]
  {
    var k := if start < 0 then Max(|a| + start, 0) else Min(start, |a|);
    a[k..]
  }

  /** The buttons of the time-frame bar, in display order. */
  const TimeFrameButtons: seq<string> := ["1d", "3d", "1w", "1m", "6m", "1y", "max"]

  /** The lookup table of `getNumDays`: trailing window length per time-frame key. */
  const TimeFrames: map<string, int> :=
    map["1d" := 1, "3d" := 3, "1w" := 7, "1m" := 30, "6m" := 183, "1y" := 365, "max" := 730]

  /** `timeFrames[timeFrame] || 7`: a missing key, or a falsy (zero) entry, gives 7. */
  function NumDays(timeFrame: string): (n: int)
    ensures 1 <= n <= 730
    ensures timeFrame !in TimeFrames ==> n == 7
  {
    var entry := if timeFrame in TimeFrames then Some(TimeFrames[timeFrame]) else None;
    match entry
    case Some(days) => if days != 0 then days else 7
    case None => 7
  }

  /** The table as a whole: each button's window, and 7 for every other key. */
  lemma NumDaysTable(timeFrame: string)
    ensures NumDays("1d") == 1 && NumDays("3d") == 3 && NumDays("1w") == 7
    ensures NumDays("1m") == 30 && NumDays("6m") == 183 && NumDays("1y") == 365
    ensures NumDays("max") == 730
    ensures timeFrame !in TimeFrameButtons ==> NumDays(timeFrame) == 7
    ensures NumDays(timeFrame) == 7 <==> timeFrame == "1w" || timeFrame !in TimeFrameButtons
  {
  }

  /** `data.slice(-numDays)`: the trailing `numDays` points. */
  function Window(data: seq<Point>, numDays: int): (r: seq<Point>)
    ensures 1 <= numDays ==> |r| == Min(|data|, numDays)
    ensures |r| <= |data| && r == data[|data| - |r|..]
  {
    SliceFrom(data, -numDays)
  }

  /** `filteredData`: the trailing min(|data|, NumDays(timeFrame)) points of the
      series, in their original order. */
  function FilteredData(data: seq<Point>, timeFrame: string): (r: seq<Point>)
    ensures |r| == Min(|data|, NumDays(timeFrame))
    ensures forall k :: 0 <= k < |r| ==> r[k] == data[|data| - |r| + k]
    ensures |data| <= NumDays(timeFrame) ==> r == data
    ensures data == [] ==> r == []
  {
    Window(data, NumDays(timeFrame))
  }

  /** An unrecognised key filters exactly as the one-week button does. */
  lemma UnknownKeyActsAsWeek(data: seq<Point>, timeFrame: string)
    requires timeFrame !in TimeFrameButtons
    ensures FilteredData(data, timeFrame) == FilteredData(data, "1w")
  {
  }

  /** Filtering an already filtered series keeps the narrower window. */
  lemma WindowCompose(data: seq<Point>, m: int, n: int)
    requires 1 <= m && 1 <= n
    ensures Window(Window(data, m), n) == Window(data, Min(m, n))
  {
  }

  /** A narrower window is a trailing part of a wider one. */
  lemma WindowNested(data: seq<Point>, m: int, n: int)
    requires 1 <= n <= m
    ensures var wide := Window(data, m); var narrow := Window(data, n);
      |narrow| <= |wide| && narrow == wide[|wide| - |narrow|..]
  {
  }
}
