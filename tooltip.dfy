/**
 * The tooltip of the chart: the payload and label built from `tooltipIndex`.
 * The index is the one the Graph component keeps in its state: set to
 * `data.length - 1`, an index into the FULL series, while the payload reads
 * it from the FILTERED series.
 */
module Tooltip {
  import opened Wrappers
  import opened Series
  import opened Delta

  /** One entry of the payload handed to the tooltip: `{ value }`. */
  datatype PayloadEntry = PayloadEntry(value: real)

  /** `filteredData[tooltipIndex]`: a null index reads the property "null",
      which an array does not have. */
  function PointAt(filtered: seq<Point>, tooltipIndex: Option<int>): Option<Point>
  {
    match tooltipIndex
    case None => None
    case Some(i) => At(filtered, i)
  }

  /** `filteredData[tooltipIndex] ? [{ value: filteredData[tooltipIndex].value }] : []` */
  function Payload(filtered: seq<Point>, tooltipIndex: Option<int>): (r: seq<PayloadEntry>)
    ensures |r| <= 1
    ensures r != [] <==> tooltipIndex.Some? && 0 <= tooltipIndex.value < |filtered|
    ensures r != [] ==> r[0].value == filtered[tooltipIndex.value].value
  {
    match PointAt(filtered, tooltipIndex)
    case Some(p) => [PayloadEntry(p.value)]
    case None => []
  }

  /** `filteredData[tooltipIndex]?.name || ''` */
  function Label(filtered: seq<Point>, tooltipIndex: Option<int>): (r: string)
    ensures !(tooltipIndex.Some? && 0 <= tooltipIndex.value < |filtered|) ==> r == ""
    ensures tooltipIndex.Some? && 0 <= tooltipIndex.value < |filtered| ==>
      r == filtered[tooltipIndex.value].name.GetOr("")
  {
    match PointAt(filtered, tooltipIndex)
    case Some(p) => p.name.GetOr("")
    case None => ""
  }

  /** Once a non-empty series has set the cursor to its last index, the tooltip
      shows a point exactly when the whole series fits inside the time frame's
      window; that point is then the latest one, whose value is the headline
      value. With a longer series the payload is empty and the label is ''. */
  lemma TooltipShownOnlyWhenSeriesFits(data: seq<Point>, timeFrame: string)
    ensures data != [] ==>
      var f := FilteredData(data, timeFrame); var idx := Some(|data| - 1);
      (Payload(f, idx) != [] <==> |data| <= NumDays(timeFrame)) &&
      (Payload(f, idx) != [] ==> Payload(f, idx) == [PayloadEntry(LastValue(f))] &&
                                 Label(f, idx) == data[|data| - 1].name.GetOr("")) &&
      (Payload(f, idx) == [] ==> Label(f, idx) == "")
  {
  }

  /** Before any data has arrived there is nothing to show, whatever the index. */
  lemma EmptySeriesHasEmptyTooltip(timeFrame: string, tooltipIndex: Option<int>)
    ensures Payload(FilteredData([], timeFrame), tooltipIndex) == []
    ensures Label(FilteredData([], timeFrame), tooltipIndex) == ""
  {
  }
}
