/**
 * Worked scenarios: the headline figures on short series, and a client of
 * GraphView that mounts the component, receives ten daily points and picks
 * the three-day frame.
 */
module Scenarios {
  import opened Wrappers
  import opened Series
  import opened Delta
  import opened Tooltip
  import opened View

  function Unnamed(values: seq<real>): seq<Point>
  {
    seq(|values|, k requires 0 <= k < |values| => Point(None, values[k]))
  }

  /** Empty and one-point series fall back to zeros; equal values classify positive. */
  lemma HeadlineExamples()
    ensures LastValue([]) == 0.0 && SecondLastValue([]) == 0.0
    ensures PercentageChange(0.0, 0.0) == FixedZero && SubtitleClassOf(0.0, 0.0) == Positive
    ensures var s := Unnamed([50.0]);
      LastValue(s) == 50.0 && SecondLastValue(s) == 0.0 &&
      PercentageChange(50.0, 0.0) == FixedZero && SubtitleClassOf(50.0, 0.0) == Positive
    ensures var s := Unnamed([100.0, 110.0]);
      LastValue(s) == 110.0 && SecondLastValue(s) == 100.0 &&
      PercentageChange(110.0, 100.0) == Percent(10.0) && SubtitleClassOf(110.0, 100.0) == Positive
    ensures var s := Unnamed([110.0, 100.0]);
      PercentageChange(LastValue(s), SecondLastValue(s)) == Percent(-100.0 / 11.0) &&
      SubtitleClassOf(LastValue(s), SecondLastValue(s)) == Negative
    ensures var s := Unnamed([5.0, 5.0]);
      SubtitleClassOf(LastValue(s), SecondLastValue(s)) == Positive
  {
  }

  /** Ten ascending points and the three-day frame: the last three points are
      shown and the headline compares 10 with 9, but the cursor still holds 9,
      the last index of the full series, so the tooltip is empty. */
  method TenPointsThreeDays()
  {
    var g := new GraphView();
    var series := Unnamed([1.0, 2.0, 3.0, 4.0, 5.0, 6.0, 7.0, 8.0, 9.0, 10.0]);
    g.SetData(series);
    g.FinishLoading();
    assert g.tooltipIndex == Some(9) && g.timeFrame == "1w";
    var v := g.Render();
    NumDaysTable("1w");
    assert v.payload == [] && v.tooltipLabel == "";
    assert v.panel == Chart;

    g.SelectTimeFrame("3d");
    v := g.Render();
    NumDaysTable("3d");
    assert |v.filtered| == 3;
    assert v.filtered == series[7..];
    assert v.lastValue == 10.0 && v.secondLastValue == 9.0;
    assert v.percentageChange == Percent(100.0 / 9.0);
    assert v.subtitleClass == Positive;
    assert g.tooltipIndex == Some(9);
    assert v.payload == [] && v.tooltipLabel == "";

    g.SelectTimeFrame("1m");
    v := g.Render();
    NumDaysTable("1m");
    assert v.payload == [PayloadEntry(10.0)];
  }
}
