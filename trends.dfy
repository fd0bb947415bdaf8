// The trend summary computed over the trailing window of the series: the
// window totals, the window means and the period-over-period deltas of the
// assistant's context (`tail(14)`), and the seven-day cards of the home page
// (`tail(7)`).

module Trends {

  import opened Common
  import opened Metrics

  /** What the context brief reports about the trailing window. */
  datatype TrendSummary = TrendSummary(
    periodStart: int,
    periodEnd: int,
    totalAnomalies: int,
    totalHighRisk: int,
    totalCritical: int,
    meanDurationDays: real,
    meanIpReputation: real,
    anomalyDeltaPct: real,
    riskDeltaPct: real)

  /** The window the assistant's context is built from. */
  const ContextWindow: nat := 14

  /** The window of the home page cards. */
  const CardWindow: nat := 7

  /** `max(first, 1)`: the baseline clamped so that it is never below one. */
  function Baseline(first: int): (b: int)
    ensures b >= 1
    ensures first >= 1 ==> b == first
    ensures first < 1 ==> b == 1
  {
    if first >= 1 then first else 1
  }

  /** `(last - first) / max(first, 1) * 100`. */
  function DeltaPct(first: int, last: int): real
  {
    ((last - first) as real) / (Baseline(first) as real) * 100.0
  }

  /** The delta of a column over the first and last rows of a non-empty window. */
  function ColumnDelta(window: seq<DailyMetric>, c: Counter): real
    requires |window| > 0
  {
    DeltaPct(CountOf(window[0], c), CountOf(window[|window| - 1], c))
  }

  /** The delta has the sign of `last - first`, whatever the baseline. */
  lemma DeltaSign(first: int, last: int)
    ensures DeltaPct(first, last) > 0.0 <==> last > first
    ensures DeltaPct(first, last) == 0.0 <==> last == first
    ensures DeltaPct(first, last) < 0.0 <==> last < first
  {
    var d, b := (last - first) as real, Baseline(first) as real;
    assert DeltaPct(first, last) == d / b * 100.0;
    if d > 0.0 { assert d / b > 0.0; }
    else if d < 0.0 { assert d / b < 0.0; }
  }

  /** A zero (or negative) baseline is read as one: the delta is `100 * (last - first)`. */
  lemma DeltaClampedBaseline(first: int, last: int)
    requires first <= 0
    ensures DeltaPct(first, last) == ((last - first) as real) * 100.0
  {
  }

  /**
   * The delta undoes: from the first value and the delta the last value is
   * recovered, so the delta loses nothing about the window's endpoints.
   */
  lemma DeltaRecoversLast(first: int, last: int)
    ensures (first as real) + DeltaPct(first, last) * (Baseline(first) as real) / 100.0 == last as real
  {
    var d, b := (last - first) as real, Baseline(first) as real;
    assert DeltaPct(first, last) * b / 100.0 == d / b * b;
    assert d / b * b == d;
  }

  /** On an ordinary baseline the delta is the usual percentage change. */
  lemma DeltaOrdinary(first: int, last: int)
    requires first >= 1
    ensures DeltaPct(first, last) == ((last as real) / (first as real) - 1.0) * 100.0
  {
    var f, l := first as real, last as real;
    assert Baseline(first) as real == f;
    assert DeltaPct(first, last) == (l - f) / f * 100.0;
    SubOverDivisor(l, f);
  }

  lemma SubOverDivisor(l: real, f: real)
    requires f > 0.0
    ensures (l - f) / f == l / f - 1.0
  {
    assert (l - f) / f == l / f - f / f;
  }

  /** A one-row window has a zero delta: its first row is its last. */
  lemma DeltaOneRow(window: seq<DailyMetric>, c: Counter)
    requires |window| == 1
    ensures ColumnDelta(window, c) == 0.0
  {
  }

  /**
   * The trend summary of the trailing `window` rows, or nothing when the
   * series is empty.  Totals and means run over every row of the window;
   * the deltas use its first and last rows; the period is the earliest and
   * latest date in it.
   */
  function Summarize(series: seq<DailyMetric>, window: nat): (r: Option<TrendSummary>)
    requires window >= 1
    ensures r.None? <==> series == []
    ensures r.Some? ==> r.value.totalAnomalies == Sum(Counts(Tail(series, window), Anomalies))
    ensures r.Some? ==> r.value.totalHighRisk == Sum(Counts(Tail(series, window), HighRisk))
    ensures r.Some? ==> r.value.totalCritical == Sum(Counts(Tail(series, window), Critical))
    ensures r.Some? ==> r.value.meanDurationDays == Mean(Measures(Tail(series, window), Duration))
    ensures r.Some? ==> r.value.meanIpReputation == Mean(Measures(Tail(series, window), IpReputation))
    ensures r.Some? ==> r.value.periodStart == FirstDay(Tail(series, window))
    ensures r.Some? ==> r.value.periodEnd == LastDay(Tail(series, window))
    ensures r.Some? ==> forall row :: row in Tail(series, window) ==> r.value.periodStart <= row.date <= r.value.periodEnd
    ensures r.Some? ==> r.value.anomalyDeltaPct == ColumnDelta(Tail(series, window), Anomalies)
    ensures r.Some? ==> r.value.riskDeltaPct == ColumnDelta(Tail(series, window), HighRisk)
  {
    if series == [] then None
    else
      var w := Tail(series, window);
      Some(TrendSummary(
        FirstDay(w), LastDay(w),
        Sum(Counts(w, Anomalies)), Sum(Counts(w, HighRisk)), Sum(Counts(w, Critical)),
        Mean(Measures(w, Duration)), Mean(Measures(w, IpReputation)),
        ColumnDelta(w, Anomalies), ColumnDelta(w, HighRisk)))
  }

  /**
   * On well-formed rows the window totals are non-negative, bounded by the
   * whole series' totals, and the mean IP reputation stays in [0, 1].
   */
  lemma SummaryBounds(series: seq<DailyMetric>, window: nat)
    requires window >= 1 && series != [] && AllWellFormed(series)
    ensures var s := Summarize(series, window).value;
      0 <= s.totalAnomalies <= Sum(Counts(series, Anomalies)) &&
      0 <= s.totalHighRisk <= Sum(Counts(series, HighRisk)) &&
      0 <= s.totalCritical <= Sum(Counts(series, Critical)) &&
      0.0 <= s.meanIpReputation <= 1.0 &&
      0.0 <= s.meanDurationDays
  {
    var w := Tail(series, window);
    forall c: Counter ensures 0 <= Sum(Counts(w, c)) <= Sum(Counts(series, c)) {
      CountsTail(series, c, window);
      assert forall i :: 0 <= i < |series| ==> 0 <= CountOf(series[i], c) by {
        forall i | 0 <= i < |series| ensures 0 <= CountOf(series[i], c) {
          assert WellFormed(series[i]);
        }
      }
      SumSuffixAtMost(Counts(series, c), window);
    }
    forall i | 0 <= i < |w| ensures WellFormed(w[i]) {
      assert w[i] == series[|series| - |w| + i];
    }
    MeanBetween(Measures(w, IpReputation), 0.0, 1.0);
    var d := Measures(w, Duration);
    MeanBetween(d, 0.0, Max(d));
  }

  /** On a date-ordered series the period runs from the window's first to its last day. */
  lemma SummaryPeriodOrdered(series: seq<DailyMetric>, window: nat)
    requires window >= 1 && series != [] && DateOrdered(series)
    ensures var w := Tail(series, window);
      Summarize(series, window).value.periodStart == w[0].date &&
      Summarize(series, window).value.periodEnd == w[|w| - 1].date
  {
    var w := Tail(series, window);
    var r := Summarize(series, window).value;
    assert r.periodStart == FirstDay(w) && r.periodEnd == LastDay(w);
    TailOrdered(series, window);
    OrderedDateBounds(w);
  }

  /** The four cards at the top of the home page. */
  datatype HomeCards = HomeCards(
    anomalies7: int,
    highRisk7: int,
    critical7: int,
    meanDurationDays: Option<real>)

  /**
   * The three counter cards sum the last seven rows; the MTTR card averages
   * the whole frame, and is NaN (here `None`) when the frame is empty.
   */
  function Cards(df: seq<DailyMetric>): (cards: HomeCards)
    ensures cards.anomalies7 == Sum(Counts(Tail(df, CardWindow), Anomalies))
    ensures cards.highRisk7 == Sum(Counts(Tail(df, CardWindow), HighRisk))
    ensures cards.critical7 == Sum(Counts(Tail(df, CardWindow), Critical))
    ensures cards.meanDurationDays.None? <==> df == []
    ensures df != [] ==> cards.meanDurationDays.value == Mean(Measures(df, Duration))
  {
    var w := Tail(df, CardWindow);
    HomeCards(
      Sum(Counts(w, Anomalies)), Sum(Counts(w, HighRisk)), Sum(Counts(w, Critical)),
      if df == [] then None else Some(Mean(Measures(df, Duration))))
  }

  /** With fewer than seven rows the cards total the whole frame, with no error. */
  lemma CardsShortFrame(df: seq<DailyMetric>)
    requires |df| <= CardWindow
    ensures Cards(df).anomalies7 == Sum(Counts(df, Anomalies))
    ensures Cards(df).highRisk7 == Sum(Counts(df, HighRisk))
    ensures Cards(df).critical7 == Sum(Counts(df, Critical))
  {
  }
}
