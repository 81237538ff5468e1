# Graph view-model

A Dafny model of the derived view inside the `Graph` chart component of
Dashboard_Graph (`src/Graph/Graph.jsx`). The component keeps a time series of
`{name, value}` points and a small view state, and from them derives what it
draws:

- the time-frame table `getNumDays` (`'1d'` … `'max'`, anything else 7);
- the window filter `filteredData = data.slice(-numDays)`;
- the headline figures: last value, prior value, percentage change with its
  zero guard, and the positive/negative subtitle class;
- the tooltip cursor (`tooltipIndex`) and the tooltip payload and label built
  from it;
- the view state (`activeTab`, `timeFrame`, `isFullscreen`, `data`,
  `tooltipIndex`, `loading`), changed by the click handlers and the data
  effect, and `renderContent`'s choice of panel.

Layout:

- `wrappers.dfy` — `Option` (a JavaScript value that may be `undefined` or
  `null`) and `Min`/`Max`.
- `series.dfy` — module `Series`: points, JavaScript array indexing and
  `slice`, the time-frame table, the window filter and its lemmas.
- `delta.dfy` — module `Delta`: last and prior values, percentage change,
  subtitle class, and how they behave under the window filter.
- `tooltip.dfy` — module `Tooltip`: payload and label, and the lemma that
  says when the tooltip actually shows a point.
- `view.dfy` — module `View`: the state as a value (`ViewState`), its
  transitions (`Apply`) and their lemmas, `renderContent`, `RenderState` (the
  values one render reads), and the class `GraphView` whose fields hold the
  state and whose methods are the handlers.
- `scenarios.dfy` — module `Scenarios`: the headline figures on short
  series, and a client of `GraphView` (ten points, then the three-day frame).

JavaScript behaviour is written out rather than assumed: `a[i]` is `undefined`
outside the array (and for a `null` index), `slice` with a negative start
counts from the end and clamps at 0, and `timeFrames[k] || 7` falls back to 7.
Point values are `real`; the numbers are not rounded.

The cursor is modelled as the code writes it, not as a "last filtered point"
cursor. When `data` changes to a non-empty series, `tooltipIndex` becomes
`data.length - 1`, an index into the full series. An empty series leaves it
where it was, and a time-frame change does not touch it. The payload then
reads `filteredData[tooltipIndex]`. So the tooltip shows a point only while
the whole series fits in the window, and then it is the latest point
(`Tooltip.TooltipShownOnlyWhenSeriesFits`). With ten points and `'3d'` the
payload is empty (`Scenarios.TenPointsThreeDays`). The cursor does not
follow the filtered series.

Two smaller points where the code is followed as well. Points are read
through their `name` field (the tooltip label and the x axis), which may be
missing; a missing name gives the label `''`. An unrecognised tab value is
not rejected: it is stored, and `renderContent` draws the chart for it.

## Model

| member | source | states |
|---|---|---|
| `Series.SliceFrom` | src/Graph/Graph.jsx:63 | JavaScript `slice(start)`: a negative start keeps the trailing min(len, -start) elements, a non-negative start drops that many; the result is always a suffix of the array |
| `Series.NumDays` | src/Graph/Graph.jsx:53-59 | the window length is between 1 and 730, and every key outside the table gives 7 |
| `Series.NumDaysTable` | src/Graph/Graph.jsx:53-59 | '1d','3d','1w','1m','6m','1y','max' give 1, 3, 7, 30, 183, 365, 730; every other key gives 7; the window is 7 exactly for '1w' and unknown keys |
| `Series.Window` | src/Graph/Graph.jsx:63 | `data.slice(-n)` for n ≥ 1 has min(len, n) points and is the trailing part of the series |
| `Series.FilteredData` | src/Graph/Graph.jsx:61-64 | the filtered series is the trailing min(len, numDays) points in the original order: point k is data[len - |result| + k]; the whole series when it fits, empty when data is empty |
| `Series.UnknownKeyActsAsWeek` | src/Graph/Graph.jsx:58 | an unrecognised time-frame key filters exactly as '1w' does |
| `Series.WindowCompose` | src/Graph/Graph.jsx:61-64 | filtering a filtered series again keeps the narrower of the two windows |
| `Series.WindowNested` | src/Graph/Graph.jsx:61-64 | a narrower window is a trailing part of a wider one |
| `Delta.LastValue` | src/Graph/Graph.jsx:66-68 | the value of the final filtered point, or 0 when the filtered series is empty |
| `Delta.SecondLastValue` | src/Graph/Graph.jsx:67-69 | the value of the second-to-last filtered point, or 0 when there are fewer than two points |
| `Delta.PercentageChange` | src/Graph/Graph.jsx:70 | the fixed '0.00' case happens exactly when the prior value is 0; otherwise percent × prior = (last − prior) × 100 |
| `Delta.SubtitleClassOf` | src/Graph/Graph.jsx:71 | 'positive' exactly when last ≥ prior (a zero delta is positive), 'negative' exactly when last < prior |
| `Delta.PercentSignAgreesWithClass` | src/Graph/Graph.jsx:70-71 | with a positive prior the percentage is ≥ 0 exactly when the class is positive; with a negative prior and a non-zero delta the two signs are opposite |
| `Delta.LastValueIndependentOfTimeFrame` | src/Graph/Graph.jsx:61-68 | the last filtered value equals the series' own last value for every time frame |
| `Delta.SecondLastValueOfWindow` | src/Graph/Graph.jsx:61-69 | the prior value is the series' own second-to-last value for every window of two or more points, and 0 on a one-point window |
| `Delta.OneDayWindowHasNoChange` | src/Graph/Graph.jsx:53-71 | on '1d' the percentage is always the fixed '0.00' and the class is positive exactly when the last value is ≥ 0 |
| `Tooltip.Payload` | src/Graph/Graph.jsx:127 | the payload has at most one entry; it is non-empty exactly when the index is non-null and inside the filtered series, and then carries that point's value |
| `Tooltip.Label` | src/Graph/Graph.jsx:128 | the label is '' for a null or out-of-range index, otherwise the point's name or '' when it has none |
| `Tooltip.TooltipShownOnlyWhenSeriesFits` | src/Graph/Graph.jsx:127-128 | with the cursor at the last index of a non-empty full series, the payload is non-empty exactly when the series fits the window, and then it is the last filtered value with the last point's name; otherwise the label is '' |
| `Tooltip.EmptySeriesHasEmptyTooltip` | src/Graph/Graph.jsx:127-128 | with no data the payload is empty and the label is '' whatever the index |
| `View.RenderContent` | src/Graph/Graph.jsx:73-88 | the loader is chosen exactly when loading, whatever the tab; a placeholder tab gets its panel; 'chart' and every other value get the chart |
| `View.Apply` | src/Graph/Graph.jsx:37-159 | one transition keeps the cursor invariant; a non-empty series is stored and moves the cursor to its length − 1, an empty one is stored and leaves the cursor; the chosen frame and tab become the current ones; the end of loading clears the loading flag; the fullscreen flag changes exactly on the fullscreen button; each field changes only through its own action |
| `View.Enabled` | src/Graph/Graph.jsx:87-159 | a time-frame choice and a fullscreen press are possible only while the chart panel is drawn, a tab choice only outside fullscreen; the series and the end of loading come from the mount effect, not from a control |
| `View.RunKeepsFullscreenOverChart` | src/Graph/Graph.jsx:73-159 | when every action comes from a control that is on screen (fullscreen and time-frame buttons only in the chart panel, tabs only outside fullscreen), fullscreen is only ever on over the chart panel: never while loading, never on a placeholder tab |
| `View.ReplayKeepsCursorInvariant` | src/Graph/Graph.jsx:47-51 | after any sequence of actions the cursor is the last index of the full series whenever a series is present, and never negative |
| `View.ClicksKeepSeriesAndCursor` | src/Graph/Graph.jsx:93-159 | clicks and the end of loading never change the series or the cursor (a time-frame change leaves the cursor), and fullscreen ends flipped exactly after an odd number of presses |
| `View.ControlsKeepKnownFrameAndTab` | src/Graph/Graph.jsx:104-159 | through the rendered buttons and tabs the time frame stays one of the seven keys and the tab one of the five tabs |
| `View.TooltipOfCursorInvariant` | src/Graph/Graph.jsx:47-128 | in any state keeping the cursor invariant, the headline is the series' last value and the tooltip shows it exactly when the series is non-empty and fits the window |
| `View.LabelOfCursorInvariant` | src/Graph/Graph.jsx:47-128 | in any state keeping the cursor invariant, the tooltip label is the last point's name (or '') when the series fits the window, and '' otherwise |
| `View.RenderState` | src/Graph/Graph.jsx:61-163 | one render reads the filtered series; the last and prior values, the percentage and the class are taken from it; the payload and label read it at the cursor; navigation is shown exactly when not fullscreen; the panel is `renderContent`'s choice |
| `View.RenderedView` | src/Graph/Graph.jsx:47-163 | in any state keeping the cursor invariant: the headline is the series' own last value whatever the frame, the prior value its second-to-last on any window of two or more points and 0 on '1d'; the tooltip shows the latest point, with its value and name, exactly when data is non-empty and fits the window, and otherwise the label is ''; '0.00' exactly on a zero prior; positive exactly when last ≥ prior; loader exactly while loading |
| `View.TooltipAfterAnyHistory` | src/Graph/Graph.jsx:47-128 | from the mount state, after any history of actions, the tooltip shows a point exactly when the current series is non-empty and fits the current frame's window |
| `View.GraphView.constructor` | src/Graph/Graph.jsx:26-31 | the mount state: 'chart', '1w', not fullscreen, no data, null cursor, loading |
| `View.GraphView.SetData` | src/Graph/Graph.jsx:47-51 | stores the series; a non-empty series sets the cursor to its length − 1, an empty one leaves the cursor unchanged; nothing else changes; agrees with `Apply` |
| `View.GraphView.FinishLoading` | src/Graph/Graph.jsx:38-40 | clears the loading flag and nothing else; agrees with `Apply` |
| `View.GraphView.SelectTimeFrame` | src/Graph/Graph.jsx:107 | sets the time frame and nothing else; the cursor is unchanged; agrees with `Apply` |
| `View.GraphView.ToggleFullscreen` | src/Graph/Graph.jsx:93 | negates the fullscreen flag and nothing else; agrees with `Apply` |
| `View.GraphView.SelectTab` | src/Graph/Graph.jsx:155-159 | sets the active tab and nothing else; agrees with `Apply` |
| `View.GraphView.Render` | src/Graph/Graph.jsx:61-163 | the render of the current fields; while the cursor invariant holds, the headline is the series' last value and the tooltip shows a point exactly when the series is non-empty and fits the window |
| `Scenarios.HeadlineExamples` | src/Graph/Graph.jsx:66-71 | empty and one-point series give zeros and '0.00'; 100→110 gives +10 %; 110→100 gives −100/11 % and negative; 5→5 is positive |

## Left out

- `fetchData` (src/Graph/Graph.jsx:7-18) is network I/O against a fixed mock URL. The series it returns, or `[]` on failure, is the argument of `SetData`.
- The mount effect's async plumbing and the one-second `setTimeout` (src/Graph/Graph.jsx:33-45) are not modelled as timing. Only its effects remain: `SetData` and `FinishLoading`. Its `setLoading(true)` only repeats the initial value, and the cleanup it returns is never used.
- `GraphView.SetData` runs `setData` and the `[data]` effect as one step. The single render in between, with the new data and the old cursor, is not modelled.
- Number formatting is not modelled: `toFixed(2)` in the percentage and `toLocaleString` in the headline. Values are exact reals, so there is no binary floating-point rounding. `Delta.PercentageChange` keeps the percentage as a number, with the zero-guard string `'0.00'` as its own case.
- The `+` prefix test `percentageChange >= 0` (src/Graph/Graph.jsx:150) compares a string with a number. It is presentation only.
- Keys inherited from the JavaScript object prototype (such as `'constructor'`) are not modelled in `getNumDays`. Keys are plain strings, and any key outside the table gives 7.
- Points whose `value` is missing or not a number are not modelled; every point has a numeric value.
- The JSX, the recharts and antd components, the CSS classes, the inert Compare button and the placeholder panels' text are not modelled. Only the panel choice and whether the navigation is shown are kept.
- Which action can happen when: `View.Apply` lets every action happen in any state and any order, and lets the series and the end of loading arrive more than once. In the component the series and the end of loading each come once, from the mount effect; the fullscreen and time-frame buttons exist only in the chart panel and the tabs only outside fullscreen. `View.Enabled` and `View.Run` state which controls are on screen, and `View.RunKeepsFullscreenOverChart` proves what that adds; the other lemmas over `Replay` hold for every sequence of actions.
- src/Components/Tooltip.jsx and src/Components/FixedTooltip.jsx are not part of this model. They only render a payload and guard against an empty one.
