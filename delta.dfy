/**
 * The headline figures of the Graph component: the last and prior values of
 * the filtered series, the percentage change and the subtitle class.
 */
module Delta {
  import opened Wrappers
  import opened Series

  /** `lastDataPoint ? lastDataPoint.value : 0` with `lastDataPoint = filteredData[length - 1]`. */
  function LastValue(filtered: seq<Point>): (v: real)
    ensures filtered == [] ==> v == 0.0
    ensures filtered != [] ==> v == filtered[|filtered| - 1].value
  {
    match At(filtered, |filtered| - 1)
    case Some(p) => p.value
    case None => 0.0
  }

  /** `secondLastDataPoint ? secondLastDataPoint.value : 0` with the point at `length - 2`. */
  function SecondLastValue(filtered: seq<Point>): (v: real)
    ensures |filtered| < 2 ==> v == 0.0
    ensures 2 <= |filtered| ==> v == filtered[|filtered| - 2].value
  {
    match At(filtered, |filtered| - 2)
    case Some(p) => p.value
    case None => 0.0
  }

  /** The percentage change before display formatting: the fixed string '0.00'
      when the prior value is zero, otherwise a signed percentage. */
  datatype PercentChange = FixedZero | Percent(percent: real)

  function PercentageChange(last: real, prior: real): (p: PercentChange)
    ensures p.FixedZero? <==> prior == 0.0
    ensures p.Percent? ==> p.percent * prior == (last - prior) * 100.0
  {
    if prior != 0.0 then Percent((last - prior) / prior * 100.0) else FixedZero
  }

  /** The CSS class of the subtitle line. */
  datatype SubtitleClass = Positive | Negative

  function SubtitleClassOf(last: real, prior: real): (c: SubtitleClass)
    ensures c == Positive <==> prior <= last
    ensures c == Negative <==> last < prior
  {
    if last - prior >= 0.0 then Positive else Negative
  }

  /** With a positive prior value the sign of the percentage agrees with the class;
      with a negative prior value a rise shows a negative percentage. */
  lemma PercentSignAgreesWithClass(last: real, prior: real)
    requires prior != 0.0
    ensures 0.0 < prior ==>
      (PercentageChange(last, prior).percent >= 0.0 <==> SubtitleClassOf(last, prior) == Positive)
    ensures prior < 0.0 && last != prior ==>
      (PercentageChange(last, prior).percent >= 0.0 <==> SubtitleClassOf(last, prior) == Negative)
  {
  }

  /** The last point survives every window, so the headline value does not
      depend on the time frame. */
  lemma LastValueIndependentOfTimeFrame(data: seq<Point>, timeFrame: string)
    ensures LastValue(FilteredData(data, timeFrame)) == LastValue(data)
  {
  }

  /** The prior value is the series' own second-to-last value for every window of
      two or more points, and 0 for the one-point window of '1d'. */
  lemma SecondLastValueOfWindow(data: seq<Point>, timeFrame: string)
    ensures 2 <= NumDays(timeFrame) ==>
      SecondLastValue(FilteredData(data, timeFrame)) == SecondLastValue(data)
    ensures NumDays(timeFrame) == 1 ==> SecondLastValue(FilteredData(data, timeFrame)) == 0.0
  {
  }

  /** On the '1d' window the prior value is 0, so the percentage is the fixed
      '0.00' and the class is decided by the sign of the last value alone. */
  lemma OneDayWindowHasNoChange(data: seq<Point>)
    ensures var f := FilteredData(data, "1d");
      PercentageChange(LastValue(f), SecondLastValue(f)) == FixedZero &&
      (SubtitleClassOf(LastValue(f), SecondLastValue(f)) == Positive <==> 0.0 <= LastValue(f))
  {
  }
}
