/**
 * The state of the Graph component (its six `useState` fields), the click
 * handlers and the effect that change it, and the values the rendering reads.
 */
module View {
  import opened Wrappers
  import opened Series
  import opened Delta
  import opened Tooltip

  /** The tabs of the navigation bar, in display order. */
  const Tabs: seq<string> := ["summary", "chart", "statistics", "analysis", "settings"]

  /** The tabs whose panel is a static placeholder. */
  const PlaceholderTabs: set<string> := {"summary", "statistics", "analysis", "settings"}

  /** What `renderContent` draws below the navigation bar. */
  datatype Panel = Loader | Placeholder(tab: string) | Chart

  /** `renderContent`'s choice: the loader while loading, whatever the tab; the
      placeholder of a placeholder tab; the chart for 'chart' and for any other value. */
  function RenderContent(loading: bool, activeTab: string): (p: Panel)
    ensures p == Loader <==> loading
    ensures !loading && activeTab in PlaceholderTabs ==> p == Placeholder(activeTab)
    ensures !loading && activeTab !in PlaceholderTabs ==> p == Chart
  {
    if loading then Loader
    else if activeTab == "summary" then Placeholder("summary")
    else if activeTab == "statistics" then Placeholder("statistics")
    else if activeTab == "analysis" then Placeholder("analysis")
    else if activeTab == "settings" then Placeholder("settings")
    else Chart
  }

  /** The values one render of the component reads from the state. */
  datatype Snapshot = Snapshot(
    filtered: seq<Point>,
    lastValue: real,
    secondLastValue: real,
    percentageChange: PercentChange,
    subtitleClass: SubtitleClass,
    payload: seq<PayloadEntry>,
    tooltipLabel: string,
    showNavigation: bool,
    panel: Panel)

  /** The six `useState` fields of the component, as one value. */
  datatype ViewState = ViewState(
    activeTab: string,
    timeFrame: string,
    isFullscreen: bool,
    data: seq<Point>,
    tooltipIndex: Option<int>,
    loading: bool)

  /** The mount-time state: chart tab, one-week frame, not fullscreen, no data,
      null cursor, loading. */
  const Initial: ViewState := ViewState("chart", "1w", false, [], None, true)

  /** Once a series has arrived the cursor points at its last index in the FULL
      series, and the cursor is never negative. */
  predicate CursorInvariant(s: ViewState)
  {
    && (s.data != [] ==> s.tooltipIndex == Some(|s.data| - 1))
    && (s.tooltipIndex.Some? ==> 0 <= s.tooltipIndex.value)
  }

  /** What can change the state: the arrival of a series (with the effect on
      `[data]`), the end of the loading delay, and the three kinds of click. */
  datatype Action =
    | SetData(series: seq<Point>)
    | FinishLoading
    | SelectTimeFrame(frame: string)
    | ToggleFullscreen
    | SelectTab(tab: string)

  /** One transition. Each click overwrites its own field only; a series moves
      the cursor to its last index unless it is empty. */
  function Apply(s: ViewState, a: Action): (t: ViewState)
    ensures CursorInvariant(s) ==> CursorInvariant(t)
    ensures !a.SetData? ==> t.data == s.data && t.tooltipIndex == s.tooltipIndex
    ensures a.SetData? ==> t.data == a.series
    ensures a.SetData? && a.series != [] ==> t.tooltipIndex == Some(|a.series| - 1)
    ensures a.SetData? && a.series == [] ==> t.tooltipIndex == s.tooltipIndex
    ensures a.SelectTimeFrame? ==> t.timeFrame == a.frame
    ensures a.SelectTab? ==> t.activeTab == a.tab
    ensures a.FinishLoading? ==> !t.loading
    ensures t.isFullscreen != s.isFullscreen <==> a.ToggleFullscreen?
    ensures t.timeFrame != s.timeFrame ==> a.SelectTimeFrame?
    ensures t.activeTab != s.activeTab ==> a.SelectTab?
    ensures t.loading != s.loading ==> a.FinishLoading?
  {
    match a
    case SetData(series) =>
      s.(data := series,
         tooltipIndex := if |series| > 0 then Some(|series| - 1) else s.tooltipIndex)
    case FinishLoading => s.(loading := false)
    case SelectTimeFrame(frame) => s.(timeFrame := frame)
    case ToggleFullscreen => s.(isFullscreen := !s.isFullscreen)
    case SelectTab(tab) => s.(activeTab := tab)
  }

  /** The state after a sequence of actions, in order. */
  function Replay(s: ViewState, actions: seq<Action>): ViewState
    decreases |actions|
  {
    if actions == [] then s else Replay(Apply(s, actions[0]), actions[1..])
  }

  /** The number of fullscreen-button presses in a sequence of actions. */
  function Toggles(actions: seq<Action>): nat
    decreases |actions|
  {
    if actions == [] then 0
    else (if actions[0].ToggleFullscreen? then 1 else 0) + Toggles(actions[1..])
  }

  /** An action the rendered controls can produce: a time-frame button's key or a
      navigation tab's name. */
  predicate FromControls(a: Action)
  {
    match a
    case SelectTimeFrame(frame) => frame in TimeFrameButtons
    case SelectTab(tab) => tab in Tabs
    case _ => true
  }

  /** Whether the control that produces an action is on screen: the fullscreen
      and time-frame buttons only in the chart panel, the navigation tabs only
      outside fullscreen. The series and the end of loading come from the
      mount effect, not from a control. */
  predicate Enabled(s: ViewState, a: Action)
  {
    match a
    case SelectTimeFrame(_) => RenderContent(s.loading, s.activeTab) == Chart
    case ToggleFullscreen => RenderContent(s.loading, s.activeTab) == Chart
    case SelectTab(_) => !s.isFullscreen
    case _ => true
  }

  /** A sequence of actions each of which is enabled in the state it meets. */
  predicate Run(s: ViewState, actions: seq<Action>)
    decreases |actions|
  {
    actions == [] || (Enabled(s, actions[0]) && Run(Apply(s, actions[0]), actions[1..]))
  }

  /** Fullscreen is only ever on over the chart panel: not while loading and not
      on a placeholder tab. */
  predicate FullscreenOverChart(s: ViewState)
  {
    s.isFullscreen ==> RenderContent(s.loading, s.activeTab) == Chart
  }

  /** Every run of enabled actions keeps fullscreen over the chart panel; in
      particular from the mount state. */
  lemma {:induction false} RunKeepsFullscreenOverChart(s: ViewState, actions: seq<Action>)
    requires FullscreenOverChart(s)
    requires Run(s, actions)
    ensures FullscreenOverChart(Replay(s, actions))
    decreases |actions|
  {
    if actions != [] {
      RunKeepsFullscreenOverChart(Apply(s, actions[0]), actions[1..]);
    }
  }

  /** No sequence of actions breaks the cursor invariant. */
  lemma {:induction false} ReplayKeepsCursorInvariant(s: ViewState, actions: seq<Action>)
    requires CursorInvariant(s)
    ensures CursorInvariant(Replay(s, actions))
    decreases |actions|
  {
    if actions != [] {
      ReplayKeepsCursorInvariant(Apply(s, actions[0]), actions[1..]);
    }
  }

  /** Clicks and the end of loading never touch the series or the cursor (in
      particular a time-frame change leaves the cursor where it was), and the
      fullscreen flag ends up flipped exactly when the button was pressed an
      odd number of times. */
  lemma {:induction false} ClicksKeepSeriesAndCursor(s: ViewState, actions: seq<Action>)
    requires forall k :: 0 <= k < |actions| ==> !actions[k].SetData?
    ensures Replay(s, actions).data == s.data
    ensures Replay(s, actions).tooltipIndex == s.tooltipIndex
    ensures Replay(s, actions).isFullscreen == (s.isFullscreen != (Toggles(actions) % 2 == 1))
    decreases |actions|
  {
    if actions != [] {
      ClicksKeepSeriesAndCursor(Apply(s, actions[0]), actions[1..]);
    }
  }

  /** Through the rendered controls the time frame stays one of the button keys
      and the active tab one of the navigation tabs. */
  lemma {:induction false} ControlsKeepKnownFrameAndTab(s: ViewState, actions: seq<Action>)
    requires s.timeFrame in TimeFrameButtons && s.activeTab in Tabs
    requires forall k :: 0 <= k < |actions| ==> FromControls(actions[k])
    ensures Replay(s, actions).timeFrame in TimeFrameButtons
    ensures Replay(s, actions).activeTab in Tabs
    decreases |actions|
  {
    if actions != [] {
      ControlsKeepKnownFrameAndTab(Apply(s, actions[0]), actions[1..]);
    }
  }

  /** In a state that keeps the cursor invariant the tooltip shows the latest
      point exactly when the whole series fits the frame's window. */
  lemma {:induction false} TooltipOfCursorInvariant(s: ViewState)
    requires CursorInvariant(s)
    ensures var f := FilteredData(s.data, s.timeFrame);
      && LastValue(f) == LastValue(s.data)
      && (Payload(f, s.tooltipIndex) != [] <==> s.data != [] && |s.data| <= NumDays(s.timeFrame))
      && (Payload(f, s.tooltipIndex) != [] ==> Payload(f, s.tooltipIndex) == [PayloadEntry(LastValue(f))])
  {
    var f := FilteredData(s.data, s.timeFrame);
    LastValueIndependentOfTimeFrame(s.data, s.timeFrame);
    if s.data == [] {
      assert f == [];
    } else {
      assert s.tooltipIndex == Some(|s.data| - 1);
      TooltipShownOnlyWhenSeriesFits(s.data, s.timeFrame);
    }
  }

  /** In a state that keeps the cursor invariant the label is the latest
      point's name when the series fits the frame's window, and '' otherwise. */
  lemma {:induction false} LabelOfCursorInvariant(s: ViewState)
    requires CursorInvariant(s)
    ensures s.data != [] && |s.data| <= NumDays(s.timeFrame) ==>
      Label(FilteredData(s.data, s.timeFrame), s.tooltipIndex) == s.data[|s.data| - 1].name.GetOr("")
    ensures !(s.data != [] && |s.data| <= NumDays(s.timeFrame)) ==>
      Label(FilteredData(s.data, s.timeFrame), s.tooltipIndex) == ""
  {
    if s.data == [] {
      assert FilteredData(s.data, s.timeFrame) == [];
    } else {
      TooltipShownOnlyWhenSeriesFits(s.data, s.timeFrame);
    }
  }

  /** What one render of a state reads, each value computed as the component
      computes it. */
  function RenderState(s: ViewState): (v: Snapshot)
    ensures v.filtered == FilteredData(s.data, s.timeFrame)
    ensures v.lastValue == LastValue(v.filtered)
    ensures v.secondLastValue == SecondLastValue(v.filtered)
    ensures v.percentageChange == PercentageChange(v.lastValue, v.secondLastValue)
    ensures v.subtitleClass == SubtitleClassOf(v.lastValue, v.secondLastValue)
    ensures v.payload == Payload(v.filtered, s.tooltipIndex)
    ensures v.tooltipLabel == Label(v.filtered, s.tooltipIndex)
    ensures v.showNavigation <==> !s.isFullscreen
    ensures v.panel == RenderContent(s.loading, s.activeTab)
  {
    var f := FilteredData(s.data, s.timeFrame);
    var last := LastValue(f);
    var prior := SecondLastValue(f);
    Snapshot(
      f, last, prior,
      PercentageChange(last, prior),
      SubtitleClassOf(last, prior),
      Payload(f, s.tooltipIndex),
      Label(f, s.tooltipIndex),
      !s.isFullscreen,
      RenderContent(s.loading, s.activeTab))
  }

  /** What a render of a state that keeps the cursor invariant shows. The
      headline is the series' own last value whatever the frame, and the prior
      value its second-to-last one on every window of two or more points; the
      tooltip shows the latest point, labelled with its name, exactly when the
      whole series fits the frame's window; '0.00' exactly on a zero prior;
      positive exactly when last >= prior; the loader exactly while loading. */
  lemma {:induction false} RenderedView(s: ViewState)
    requires CursorInvariant(s)
    ensures RenderState(s).lastValue == LastValue(s.data)
    ensures 2 <= NumDays(s.timeFrame) ==> RenderState(s).secondLastValue == SecondLastValue(s.data)
    ensures NumDays(s.timeFrame) == 1 ==> RenderState(s).secondLastValue == 0.0
    ensures RenderState(s).payload != [] <==> s.data != [] && |s.data| <= NumDays(s.timeFrame)
    ensures RenderState(s).payload != [] ==>
      RenderState(s).payload == [PayloadEntry(LastValue(s.data))] &&
      RenderState(s).tooltipLabel == s.data[|s.data| - 1].name.GetOr("")
    ensures RenderState(s).payload == [] ==> RenderState(s).tooltipLabel == ""
    ensures RenderState(s).percentageChange.FixedZero? <==> RenderState(s).secondLastValue == 0.0
    ensures RenderState(s).subtitleClass == Positive <==>
      RenderState(s).secondLastValue <= RenderState(s).lastValue
    ensures RenderState(s).panel == Loader <==> s.loading
  {
    var v := RenderState(s);
    TooltipOfCursorInvariant(s);
    LabelOfCursorInvariant(s);
    SecondLastValueOfWindow(s.data, s.timeFrame);
  }

  /** Whatever happened since mount, the tooltip shows a point exactly when the
      current series is non-empty and fits the current frame's window. */
  lemma TooltipAfterAnyHistory(actions: seq<Action>)
    ensures CursorInvariant(Replay(Initial, actions))
    ensures var t := Replay(Initial, actions);
      RenderState(t).payload != [] <==> t.data != [] && |t.data| <= NumDays(t.timeFrame)
  {
    ReplayKeepsCursorInvariant(Initial, actions);
    RenderedView(Replay(Initial, actions));
  }

  /** The component: its state lives in six fields that the handlers overwrite. */
  class GraphView {
    var activeTab: string
    var timeFrame: string
    var isFullscreen: bool
    var data: seq<Point>
    var tooltipIndex: Option<int>
    var loading: bool

    function State(): ViewState
      reads this
    {
      ViewState(activeTab, timeFrame, isFullscreen, data, tooltipIndex, loading)
    }

    ghost predicate Valid()
      reads this
    {
      CursorInvariant(State())
    }

    constructor ()
      ensures Valid() && State() == Initial
      ensures activeTab == "chart" && timeFrame == "1w" && !isFullscreen
      ensures data == [] && tooltipIndex == None && loading
    {
      activeTab := "chart";
      timeFrame := "1w";
      isFullscreen := false;
      data := [];
      tooltipIndex := None;
      loading := true;
    }

    /** `setData(series)` followed by the effect on `[data]`. */
    method SetData(series: seq<Point>)
      requires Valid()
      modifies this
      ensures Valid() && State() == Apply(old(State()), Action.SetData(series))
      ensures data == series
      ensures series != [] ==> tooltipIndex == Some(|series| - 1)
      ensures series == [] ==> tooltipIndex == old(tooltipIndex)
      ensures activeTab == old(activeTab) && timeFrame == old(timeFrame)
      ensures isFullscreen == old(isFullscreen) && loading == old(loading)
    {
      data := series;
      if |data| > 0 {
        tooltipIndex := Some(|data| - 1);
      }
    }

    /** The timer callback `setLoading(false)`. */
    method FinishLoading()
      requires Valid()
      modifies this
      ensures Valid() && State() == Apply(old(State()), Action.FinishLoading)
      ensures !loading
      ensures activeTab == old(activeTab) && timeFrame == old(timeFrame)
      ensures isFullscreen == old(isFullscreen)
      ensures data == old(data) && tooltipIndex == old(tooltipIndex)
    {
      loading := false;
    }

    /** A time-frame button: `setTimeFrame(frame)`; the cursor is not moved. */
    method SelectTimeFrame(frame: string)
      requires Valid()
      modifies this
      ensures Valid() && State() == Apply(old(State()), Action.SelectTimeFrame(frame))
      ensures timeFrame == frame
      ensures activeTab == old(activeTab) && isFullscreen == old(isFullscreen)
      ensures data == old(data) && tooltipIndex == old(tooltipIndex) && loading == old(loading)
    {
      timeFrame := frame;
    }

    /** The fullscreen button: `setIsFullscreen(!isFullscreen)`. */
    method ToggleFullscreen()
      requires Valid()
      modifies this
      ensures Valid() && State() == Apply(old(State()), Action.ToggleFullscreen)
      ensures isFullscreen == !old(isFullscreen)
      ensures activeTab == old(activeTab) && timeFrame == old(timeFrame)
      ensures data == old(data) && tooltipIndex == old(tooltipIndex) && loading == old(loading)
    {
      isFullscreen := !isFullscreen;
    }

    /** A navigation tab: `setActiveTab(tab)`. */
    method SelectTab(tab: string)
      requires Valid()
      modifies this
      ensures Valid() && State() == Apply(old(State()), Action.SelectTab(tab))
      ensures activeTab == tab
      ensures timeFrame == old(timeFrame) && isFullscreen == old(isFullscreen)
      ensures data == old(data) && tooltipIndex == old(tooltipIndex) && loading == old(loading)
    {
      activeTab := tab;
    }

    /** What a render of the current state reads. While the cursor invariant
        holds, the headline is the series' last value and the tooltip shows a
        point exactly when the series is non-empty and fits the window. */
    function Render(): (r: Snapshot)
      requires Valid()
      reads this
      ensures r == RenderState(State())
      ensures r.lastValue == LastValue(data)
      ensures r.payload != [] <==> data != [] && |data| <= NumDays(timeFrame)
    {
      assert RenderState(State()).lastValue == LastValue(data) &&
        (RenderState(State()).payload != [] <==> data != [] && |data| <= NumDays(timeFrame)) by {
        RenderedView(State());
      }
      RenderState(State())
    }
  }
}
