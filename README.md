# SecureOps SOC platform — verified model of the page logic

SecureOps is a single Streamlit page script for a security-operations centre.
Most of it is layout, charts and calls to outside services. This project models
in Dafny the deterministic logic inside its pages:

- **Score interpreter** (`scoring.dfy`, module `Scoring`). The "Analyser ML"
  page turns the Isolation Forest anomaly score into a tier (CRITIQUE below
  −0.10, ÉLEVÉ from −0.10 up to 0, FAIBLE from 0) and into a fixed, ordered list
  of recommended actions. The page uses two separate if/elif/else chains for
  this, and the model proves they agree. The page stops when no model is loaded.
- **Metric reductions** (`metrics.dfy`, module `Metrics`). The daily metric row,
  column projections, `tail(n)`, sums, means, minima and maxima.
- **Trend summarizer** (`trends.dfy`, module `Trends`). Over the last 14 rows it
  computes totals and means, the period covered and the two deltas
  `(last − first) / max(first, 1) × 100`. The home page's seven-day cards are
  modelled here too.
- **Narrative context and prompt** (`narrative.dfy`, module `Narrative`).
  `groq_soc_analysis` either returns the "service unavailable" text, or builds
  the context (the no-data sentence, or the 16-line brief) and appends the
  question after the fixed separator. The context is modelled as labelled lines.
  Number and date rendering is a `Formats` value passed in by the caller.
- **Dashboard** (`dashboard.dfy`, module `Dashboard`). The inclusive date filter,
  the stop on an empty range, the totals, the min/max/mean table and the
  critical-incident rate guarded against a zero denominator.
- **Chat history** (`chat.dfy`, module `Chat`). `st.session_state.soc_chat` is a
  class `ChatLog` whose `seq` field is appended by submits, shown as its ten
  newest entries (newest first) and emptied by the clear button.
- **Date mask at timestamp resolution** (`date_mask.dfy`, module `DateMask`).
  Supports the finding below.
- `common.dfy` (module `Common`) holds the `Option` and `Result` wrappers.

Outside collaborators are parameters:

- The classifier is a function `SessionFeatures -> real`, wrapped in an
  `Option` for "model not loaded".
- The chat service's reply is an opaque string.
- Timestamps are clock readings passed in.
- Dates are integer day numbers.

Counters are `int`. Means, deltas and the rate are exact `real`s.

## Model

| member | source | states |
|---|---|---|
| `Scoring.TierOf` | app.py:1173-1178 | exactly one tier per score: CRITIQUE iff score < −0.10, ÉLEVÉ iff −0.10 ≤ score < 0, FAIBLE iff score ≥ 0 (so −0.10 is ÉLEVÉ and 0 is FAIBLE) |
| `Scoring.ActionsOf` | app.py:1214-1219 | the fixed action list of each tier (four for CRITIQUE, three for the others), the reference the actions chain is compared with in `Scoring.ActionsAgreeWithTier` |
| `Scoring.RecommendedActions` | app.py:1214-1219 | the actions chain gives the four CRITIQUE actions (escalate, isolate, forensics, alert RSSI) below −0.10, the three ÉLEVÉ actions on [−0.10, 0) and the three FAIBLE actions from 0, each in the panel's order |
| `Scoring.ActionsAgreeWithTier` | app.py:1214-1219 | the separately written actions chain always yields the action list of the tier the verdict chain chose: 4 actions for CRITIQUE, 3 otherwise |
| `Scoring.ActionsIdentifyTier` | app.py:1214-1219 | two scores get the same action list iff they get the same tier (no action list is shared between tiers) |
| `Scoring.TierMonotone` | app.py:1173-1178 | a lower score never gives a lower risk tier |
| `Scoring.TierLabel` | app.py:1173-1178 | the card's label of each tier: CRITIQUE, ÉLEVÉ, FAIBLE |
| `Scoring.TierLabelIdentifies` | app.py:1173-1178 | two tiers share a card label iff they are the same tier |
| `Scoring.ActionText` | app.py:1215-1219 | the wording of each action in the panel |
| `Scoring.Panel` | app.py:1215-1219 | the panel's markdown: one `• ` bullet per action, joined by newlines |
| `Scoring.PanelCons` | app.py:1215-1219 | a panel of several actions is the first bullet, a newline, then the panel of the rest |
| `Scoring.PanelCritique` | app.py:1215 | the CRITIQUE panel is, bullet by bullet, the markdown the source prints for scores below −0.10 |
| `Scoring.PanelEleve` | app.py:1217 | the ÉLEVÉ panel is, bullet by bullet, the markdown the source prints for scores in [−0.10, 0) |
| `Scoring.PanelFaible` | app.py:1219 | the FAIBLE panel is, bullet by bullet, the markdown the source prints from 0 |
| `Scoring.PanelOfScore` | app.py:1214-1219 | for every score, the panel built from the recommended actions is the source's markdown of that score's range |
| `Scoring.Analyze` | app.py:1123-1165 | with no model loaded the page stops with "Modèle ML non disponible" and no score; otherwise the score is the classifier's value on the features, and the tier and actions are those of that score |
| `Metrics.Counts` | app.py:533-535 | an integer column has one value per row, the row's counter |
| `Metrics.Measures` | app.py:536-537 | a real column has one value per row, the row's measure |
| `Metrics.Tail` | app.py:526 | `tail(n)` has length min(n, series length), is the suffix of that length, and is the whole series when the series is not longer than n (no error) |
| `Metrics.CountsTail` | app.py:669 | projecting a column commutes with taking the trailing window |
| `Metrics.SumAppend` | app.py:533-535 | a column sum over two concatenated parts is the sum of their sums |
| `Metrics.SumBoundsEach` | app.py:533-535 | a total of non-negative counters is ≥ 0 and ≥ every single row's value |
| `Metrics.SumMonotone` | app.py:1067-1069 | summing pointwise smaller counters gives a smaller total |
| `Metrics.SumSuffixAtMost` | app.py:669-689 | with non-negative counters a window total lies between 0 and the whole series' total |
| `Metrics.Sum` | app.py:533-535 | `sum()` of an integer column, 0 when empty; its properties are `Metrics.SumAppend`, `Metrics.SumBoundsEach`, `Metrics.SumMonotone` and `Metrics.SumSuffixAtMost` |
| `Metrics.Mean` | app.py:536-537 | `mean()` of a non-empty real column: its sum over its length; it lies within any bounds of the values (`Metrics.MeanBetween`) |
| `Metrics.Min` | app.py:1041-1046 | `min()` of a non-empty column is one of its values and is ≤ all of them |
| `Metrics.Max` | app.py:1048-1053 | `max()` of a non-empty column is one of its values and is ≥ all of them |
| `Metrics.RealSumBetween` | app.py:536-537 | values bounded by lo and hi have a sum between n·lo and n·hi |
| `Metrics.MeanBetween` | app.py:536-537 | a mean lies within any bounds of its values (so mean IP reputation stays in [0, 1]) |
| `Metrics.MeanWithinMinMax` | app.py:1040-1061 | in the statistics table the mean lies between the minimum and the maximum |
| `Metrics.FirstDay` | app.py:530 | the period start `min()` of a non-empty window is one of its rows' dates and no later than any of them |
| `Metrics.LastDay` | app.py:530 | the period end `max()` of a non-empty window is one of its rows' dates and no earlier than any of them |
| `Metrics.TailOrdered` | app.py:526 | the trailing window of a date-ordered frame is date-ordered |
| `Metrics.OrderedDateBounds` | app.py:530 | on a date-ordered frame the period runs from the first row's date to the last row's date |
| `Trends.Baseline` | app.py:540-541 | `max(first, 1)` is at least 1, is `first` for first ≥ 1 and 1 otherwise |
| `Trends.DeltaPct` | app.py:540-541 | `(last − first) / max(first, 1) × 100`, characterised by `Trends.DeltaSign`, `Trends.DeltaClampedBaseline`, `Trends.DeltaRecoversLast` and `Trends.DeltaOrdinary` |
| `Trends.DeltaSign` | app.py:540-541 | the delta is positive, zero or negative exactly when last − first is |
| `Trends.DeltaClampedBaseline` | app.py:540-541 | a zero (or negative) baseline counts as 1: the delta is (last − first) × 100, so [0, 5] gives 500 |
| `Trends.DeltaRecoversLast` | app.py:540-541 | first + delta × max(first, 1) / 100 = last: the delta determines the last value from the first |
| `Trends.DeltaOrdinary` | app.py:540-541 | with first ≥ 1 the delta is the ordinary percentage change (last/first − 1) × 100 |
| `Trends.DeltaOneRow` | app.py:540-541 | a one-row window has delta 0 |
| `Trends.Summarize` | app.py:526-541 | nothing iff the series is empty; otherwise the totals are sums over every row of the trailing window, the means are over all of them, the period runs from the window's earliest date (`Metrics.FirstDay`) to its latest (`Metrics.LastDay`) and so contains every window date, and the deltas use the window's first and last rows |
| `Trends.SummaryBounds` | app.py:533-537 | on well-formed rows the window totals are between 0 and the whole series' totals, the mean MTTR is ≥ 0 and the mean IP reputation is in [0, 1] |
| `Trends.SummaryPeriodOrdered` | app.py:530 | on a date-ordered series the period is the window's first to last date |
| `Trends.Cards` | app.py:669-699 | the three counter cards total the last 7 rows; the MTTR card averages the whole frame, and is absent (NaN) exactly when the frame is empty |
| `Trends.CardsShortFrame` | app.py:669-689 | a frame of at most 7 rows is totalled whole, without error |
| `Narrative.BriefReportsSummary` | app.py:527-541 | the brief has 16 lines; exactly 7 are labelled: the 5 metric lines and then the 2 trend lines, carrying the summary's totals, means and deltas in order |
| `Narrative.Brief` | app.py:527-542 | the lines of the brief: banner, rule, period, the metric block, the trend block, the trailing blank line; its labelled lines are stated in `Narrative.BriefReportsSummary` |
| `Narrative.Render` | app.py:527-542 | the lines joined by newlines, as the triple-quoted string lays them out; stated in `Narrative.NoDataRendering` and `Narrative.BriefFraming` |
| `Narrative.Context` | app.py:523-526 | a missing or empty frame gives exactly the no-data line; otherwise the brief of the summary of the last 14 rows (which exists) |
| `Narrative.NoDataHasNoItems` | app.py:523-524 | the no-data context has no metric line and no trend line |
| `Narrative.NoDataRendering` | app.py:523-524 | without data the context text is exactly "Aucune donnée SOC disponible pour l'analyse." |
| `Narrative.BriefFraming` | app.py:527-542 | the rendered brief starts and ends with a newline, as the triple-quoted string does |
| `Narrative.UserMessage` | app.py:575 | the user message is the context, then the separator "\n\n❓ QUESTION SOC:\n", then the question unchanged, with lengths adding up |
| `Narrative.QuestionRoundTrip` | app.py:575 | the question is recovered verbatim from the message |
| `Narrative.UserMessageInjective` | app.py:575 | under one context, different questions give different messages |
| `Narrative.Prepare` | app.py:520-575 | no request iff there is no client; with a client the request is the rendered context followed by the question, and the question can be read back from it |
| `Narrative.Answer` | app.py:520-582 | without a client the fixed "Service Groq non disponible" text; with one, the service's reply passed through unchanged |
| `Narrative.NoClientIgnoresService` | app.py:520-521 | without a client the answer does not depend on the service's reply (the service is never consulted) |
| `Dashboard.Filter` | app.py:893-896 | every kept row has start ≤ date ≤ end, and at most as many rows are kept as the frame has |
| `Dashboard.FilterIsSubsequence` | app.py:893-896 | the filtered rows are a subsequence of the frame, in their original order |
| `Dashboard.FilterExact` | app.py:893-896 | the filter keeps every row in range with all of its occurrences and no row out of range (both ends inclusive) |
| `Dashboard.FilterKeepsAll` | app.py:893-896 | when every row is in range the whole frame is kept |
| `Dashboard.DefaultRangeKeepsAll` | app.py:873-896 | at day resolution, the default range from the frame's earliest to its latest day keeps every row (at timestamp resolution the source drops end-day rows stamped after midnight: see `DateMask`) |
| `Dashboard.FilterWellFormed` | app.py:893-896 | filtering well-formed rows gives well-formed rows |
| `Dashboard.CounterTotalsNonNegative` | app.py:907-911 | on well-formed rows every counter total is ≥ 0 |
| `Dashboard.CriticalRateBounds` | app.py:1067-1069 | when every row has 0 ≤ critical ≤ total, the rate lies in [0, 100] (0 when the total is 0) |
| `Dashboard.CriticalRateRecovers` | app.py:1067-1069 | when the total is positive, rate × total = critical × 100 |
| `Dashboard.CriticalRate` | app.py:1067-1069 | critical total over incident total times 100, and 0 when the incident total is 0; bounded in `Dashboard.CriticalRateBounds` and inverted in `Dashboard.CriticalRateRecovers` |
| `Dashboard.Stat` | app.py:1040-1061 | a statistics row's minimum and maximum are values of the column, bound every value, and enclose the mean |
| `Dashboard.Page` | app.py:893-1069 | the page stops with "Aucune donnée disponible pour cette période" iff no row is in range; otherwise the four totals are sums over the filtered rows, the MTTR KPI is their mean duration and equals the table's mean, each of the five statistics rows is `Dashboard.Stat` of its filtered column (so its minimum and maximum are values of the column that bound it and enclose its mean), and the rate is `Dashboard.CriticalRate` of the filtered rows |
| `Dashboard.PageBounds` | app.py:907-1069 | on well-formed rows every KPI total is ≥ 0 and the critical rate is in [0, 100] |
| `Chat.Reversed` | app.py:1302 | `reversed()` keeps the length and puts element k at the mirrored position (last becomes first) |
| `Chat.Displayed` | app.py:1302 | the history panel shows min(10, log length) entries, newest first: entry k is the k-th newest entry of the log |
| `Chat.DisplayedAfterSubmit` | app.py:1286-1302 | right after a submit the panel opens on the answer, followed by the question |
| `Chat.DisplayedShortLog` | app.py:1302 | a log of at most 10 entries is shown whole, reversed |
| `Chat.ChatLog.constructor` | app.py:1245-1246 | the history starts empty |
| `Chat.ChatLog.Submit` | app.py:1286-1293 | a submit with a non-empty question grows the log by exactly 2 (the question, then the answer) and leaves earlier entries unchanged; otherwise the log is unchanged |
| `Chat.ChatLog.Shown` | app.py:1302 | the loop that lists the panel yields exactly the ten newest entries, newest first |
| `Chat.ChatLog.Clear` | app.py:1318-1319 | clearing empties the log |
| `DateMask.EndDayDroppedAsWritten` | app.py:893-896 | the mask as written drops a row stamped after midnight on the chosen end day, although its day is in range |
| `DateMask.KeptAsWritten` | app.py:894-895 | the mask as written: midnight of the start day ≤ timestamp ≤ midnight of the end day |
| `DateMask.KeptByDayExact` | app.py:893-896 | the day-based mask keeps a timestamp exactly when it lies in [midnight of start, midnight after end) |
| `DateMask.MasksAgreeAtMidnight` | app.py:499 | on rows stamped at midnight, as a date-only CSV gives them, the two masks agree |

## Findings

| source | as written | input that shows it | evidently intended | confidence | as-written member | corrected member |
|---|---|---|---|---|---|---|
| app.py:893-896 | the rows are compared with `pd.to_datetime(start_date)` and `pd.to_datetime(end_date)`, which are midnight; the generated fallback frame (app.py:502) stamps every row with the time of day it was made | fallback frame generated at 10:00; the end-date picker left at its default (the last date, app.py:883); the last row's timestamp is 10:00 on the end day, later than that day's midnight, so the row is dropped | keep every row whose calendar day is in [start, end] | medium, not executed | `DateMask.EndDayDroppedAsWritten` | `DateMask.KeptByDayExact` (the rest of the model filters on day numbers: `Dashboard.Filter`) |

## Left out

- Page layout, CSS, widgets, the navigation menu, the static home-page text, the settings tabs and the footer. These are presentation only.
- Plotly figures and gauges, and the CSV export button. These are rendering and file output.
- The chat-completion call itself: model name, system instruction, sampling parameters and the exception message. This is a network client. Its reply is the `reply` / `answer` string parameter.
- Loading the Isolation Forest and its `decision_function`. This is a pre-trained foreign artifact; the model takes it as a function parameter. The number-input ranges of the form are widget settings and are not checked.
- Loading the CSV and the random fallback frame. This is file I/O and randomness; the model accepts any sequence of rows.
- The random KPI deltas of the dashboard and the constant trend strings of the home cards. They are random or constant decoration.
- Float, integer and date formatting (`:.1f`, `:.2f`, `strftime`, thousands separators). These are the `Formats` parameter, so the model fixes the text's structure but not its digits.
- `datetime.now()`. Clock readings are parameters of `Chat.ChatLog.Submit`.
- The spinners, `time.sleep`, `st.rerun` and the quick-question session-state plumbing. These are UI timing and glue.
- Trends.Summarize: the delta is taken with exact reals. The source divides 64-bit floats, and the model ignores their rounding.
- Trends.Summarize: a `window` of 0 is excluded. Both call sites use 7 or 14.
- Dashboard.Filter: the mask compares day numbers, not timestamps. It is the intended day mask; the comparison the source writes on timestamps is `DateMask.KeptAsWritten` (see Findings).
- Metrics.Sum: counters are unbounded integers. Integer-column sums in the source are 64-bit, which cannot overflow at these magnitudes.
- Narrative.Context: the summary behind the brief is not an "empty-series sentinel". The code branches on the empty frame before summarising anything, so the model follows the code.
- Narrative.Context: the period header uses the window's earliest and latest dates (`min()`/`max()`), not its first and last rows. They coincide on a date-ordered frame (`Trends.SummaryPeriodOrdered`).
