// The "Dashboard SOC" page: the frame is filtered to the chosen date range,
// the page stops when nothing is left, and otherwise shows the totals, the
// minimum / maximum / mean table and the critical-incident rate of the
// filtered rows.

module Dashboard {

  import opened Common
  import opened Metrics

  /** The boolean mask `(date >= start) & (date <= end)`: both ends inclusive. */
  predicate InRange(row: DailyMetric, start: int, end: int)
  {
    start <= row.date <= end
  }

  /** `df[mask]`: the rows whose date lies in [start, end], in their original order. */
  function Filter(rows: seq<DailyMetric>, start: int, end: int): (kept: seq<DailyMetric>)
    ensures |kept| <= |rows|
    ensures forall i :: 0 <= i < |kept| ==> InRange(kept[i], start, end)
  {
    if rows == [] then []
    else (if InRange(rows[0], start, end) then [rows[0]] else []) + Filter(rows[1..], start, end)
  }

  /** `a` is obtained from `b` by deleting elements, keeping the order of the rest. */
  predicate IsSubsequence(a: seq<DailyMetric>, b: seq<DailyMetric>)
    decreases |b|
  {
    if a == [] then true
    else if b == [] then false
    else if a[0] == b[0] then IsSubsequence(a[1..], b[1..])
    else IsSubsequence(a, b[1..])
  }

  /** The filtered rows are a subsequence of the frame: the order is kept. */
  lemma {:induction false} FilterIsSubsequence(rows: seq<DailyMetric>, start: int, end: int)
    ensures IsSubsequence(Filter(rows, start, end), rows)
  {
    if rows != [] {
      FilterIsSubsequence(rows[1..], start, end);
      var rest := Filter(rows[1..], start, end);
      if InRange(rows[0], start, end) {
        assert Filter(rows, start, end) == [rows[0]] + rest;
        assert ([rows[0]] + rest)[1..] == rest;
      } else {
        assert Filter(rows, start, end) == rest;
        SubsequenceSkip(rest, rows);
      }
    }
  }

  /** Dropping the head of `b` keeps `a` a subsequence when `a` already was one of the tail. */
  lemma {:induction false} SubsequenceSkip(a: seq<DailyMetric>, b: seq<DailyMetric>)
    requires b != [] && IsSubsequence(a, b[1..])
    ensures IsSubsequence(a, b)
    decreases |b|, 0
  {
    if a != [] && a[0] == b[0] {
      // a[1..] is a subsequence of b[2..] or of b[1..]; either gives one of b[1..]
      SubsequenceTail(a, b[1..]);
    }
  }

  /** A subsequence without its head is still a subsequence. */
  lemma {:induction false} SubsequenceTail(a: seq<DailyMetric>, b: seq<DailyMetric>)
    requires a != [] && IsSubsequence(a, b)
    ensures IsSubsequence(a[1..], b)
    decreases |b|, 1
  {
    assert b != [];
    if a[0] == b[0] {
      if a[1..] != [] {
        SubsequenceSkip(a[1..], b);
      }
    } else {
      SubsequenceTail(a, b[1..]);
      if a[1..] != [] {
        SubsequenceSkip(a[1..], b);
      }
    }
  }

  /**
   * The filter keeps exactly the rows in range: each row in range with all
   * its occurrences, and no other row.
   */
  lemma {:induction false} FilterExact(rows: seq<DailyMetric>, start: int, end: int, r: DailyMetric)
    ensures multiset(Filter(rows, start, end))[r] == if InRange(r, start, end) then multiset(rows)[r] else 0
  {
    if rows != [] {
      FilterExact(rows[1..], start, end, r);
      assert rows == [rows[0]] + rows[1..];
      var head := if InRange(rows[0], start, end) then [rows[0]] else [];
      assert Filter(rows, start, end) == head + Filter(rows[1..], start, end);
    }
  }

  /** When every row is in range the filter keeps the whole frame. */
  lemma {:induction false} FilterKeepsAll(rows: seq<DailyMetric>, start: int, end: int)
    requires forall i :: 0 <= i < |rows| ==> InRange(rows[i], start, end)
    ensures Filter(rows, start, end) == rows
  {
    if rows != [] {
      FilterKeepsAll(rows[1..], start, end);
      assert [rows[0]] + rows[1..] == rows;
    }
  }

  /** The page opens on [first date, last date] of the frame, which keeps every row. */
  lemma DefaultRangeKeepsAll(rows: seq<DailyMetric>)
    requires rows != []
    ensures Filter(rows, FirstDay(rows), LastDay(rows)) == rows
  {
    FilterKeepsAll(rows, FirstDay(rows), LastDay(rows));
  }

  /** `sum(critical) / sum(total) * 100` when the total is positive, else 0. */
  function CriticalRate(rows: seq<DailyMetric>): real
  {
    var critical, total := Sum(Counts(rows, Critical)), Sum(Counts(rows, Incidents));
    if total > 0 then (critical as real) / (total as real) * 100.0 else 0.0
  }

  /** When no row has more critical incidents than incidents, the rate is a percentage. */
  lemma CriticalRateBounds(rows: seq<DailyMetric>)
    requires forall i :: 0 <= i < |rows| ==> 0 <= rows[i].criticalIncidents <= rows[i].totalIncidents
    ensures 0.0 <= CriticalRate(rows) <= 100.0
  {
    var cs, ts := Counts(rows, Critical), Counts(rows, Incidents);
    assert forall i :: 0 <= i < |rows| ==> 0 <= cs[i] <= ts[i];
    SumBoundsEach(cs);
    SumMonotone(cs, ts);
    var c, t := Sum(cs), Sum(ts);
    if t > 0 {
      assert (c as real) / (t as real) <= 1.0;
    }
  }

  /** The rate undoes: rate times total is a hundred times the critical count. */
  lemma CriticalRateRecovers(rows: seq<DailyMetric>)
    requires Sum(Counts(rows, Incidents)) > 0
    ensures CriticalRate(rows) * (Sum(Counts(rows, Incidents)) as real) == (Sum(Counts(rows, Critical)) as real) * 100.0
  {
    var c, t := Sum(Counts(rows, Critical)) as real, Sum(Counts(rows, Incidents)) as real;
    assert c / t * 100.0 * t == c * 100.0;
  }

  /** One row of the statistics table. */
  datatype StatRow = StatRow(minimum: real, maximum: real, mean: real)

  function Reals(xs: seq<int>): (ys: seq<real>)
    ensures |ys| == |xs|
    ensures forall i {:trigger ys[i]} :: 0 <= i < |xs| ==> ys[i] == xs[i] as real
  {
    seq(|xs|, i requires 0 <= i < |xs| => xs[i] as real)
  }

  /** `min()`, `max()` and `mean()` of a non-empty column, consistently ordered. */
  function Stat(col: seq<real>): (row: StatRow)
    requires |col| > 0
    ensures row.minimum in col && row.maximum in col
    ensures row.minimum <= row.mean <= row.maximum
    ensures forall i :: 0 <= i < |col| ==> row.minimum <= col[i] <= row.maximum
  {
    MeanWithinMinMax(col);
    StatRow(Min(col), Max(col), Mean(col))
  }

  /** What the page shows once the filter has left at least one row. */
  datatype Kpis = Kpis(
    totalAnomalies: int,
    totalHighRisk: int,
    totalCritical: int,
    meanDurationDays: real,
    totalTickets: int,
    anomaliesStat: StatRow,
    highRiskStat: StatRow,
    criticalStat: StatRow,
    durationStat: StatRow,
    ticketsStat: StatRow,
    criticalRate: real)

  const EmptyRangeText: string := "❌ Aucune donnée disponible pour cette période"

  /**
   * The page: an error and a stop when no row is in range; otherwise the
   * figures of the filtered rows, every one of them taken over all of them.
   */
  function Page(rows: seq<DailyMetric>, start: int, end: int): (r: Result<Kpis>)
    ensures r.Err? <==> Filter(rows, start, end) == []
    ensures r.Err? ==> r.message == EmptyRangeText
    ensures r.Ok? ==> r.value.totalAnomalies == Sum(Counts(Filter(rows, start, end), Anomalies))
    ensures r.Ok? ==> r.value.totalHighRisk == Sum(Counts(Filter(rows, start, end), HighRisk))
    ensures r.Ok? ==> r.value.totalCritical == Sum(Counts(Filter(rows, start, end), Critical))
    ensures r.Ok? ==> r.value.totalTickets == Sum(Counts(Filter(rows, start, end), Tickets))
    ensures r.Ok? ==> r.value.meanDurationDays == Mean(Measures(Filter(rows, start, end), Duration))
    ensures r.Ok? ==> r.value.durationStat == Stat(Measures(Filter(rows, start, end), Duration))
    ensures r.Ok? ==> r.value.meanDurationDays == r.value.durationStat.mean
    ensures r.Ok? ==> r.value.anomaliesStat == Stat(Reals(Counts(Filter(rows, start, end), Anomalies)))
    ensures r.Ok? ==> r.value.highRiskStat == Stat(Reals(Counts(Filter(rows, start, end), HighRisk)))
    ensures r.Ok? ==> r.value.criticalStat == Stat(Reals(Counts(Filter(rows, start, end), Critical)))
    ensures r.Ok? ==> r.value.ticketsStat == Stat(Reals(Counts(Filter(rows, start, end), Tickets)))
    ensures r.Ok? ==> r.value.criticalRate == CriticalRate(Filter(rows, start, end))
  {
    var f := Filter(rows, start, end);
    if f == [] then Err(EmptyRangeText)
    else
      var duration := Stat(Measures(f, Duration));
      Ok(Kpis(
        Sum(Counts(f, Anomalies)), Sum(Counts(f, HighRisk)), Sum(Counts(f, Critical)),
        Mean(Measures(f, Duration)), Sum(Counts(f, Tickets)),
        Stat(Reals(Counts(f, Anomalies))), Stat(Reals(Counts(f, HighRisk))),
        Stat(Reals(Counts(f, Critical))), duration, Stat(Reals(Counts(f, Tickets))),
        CriticalRate(f)))
  }

  /** Filtering well-formed rows leaves well-formed rows. */
  lemma {:induction false} FilterWellFormed(rows: seq<DailyMetric>, start: int, end: int)
    requires AllWellFormed(rows)
    ensures AllWellFormed(Filter(rows, start, end))
  {
    if rows != [] {
      assert WellFormed(rows[0]);
      FilterWellFormed(rows[1..], start, end);
    }
  }

  /** On well-formed rows every counter column sums to a non-negative total. */
  lemma CounterTotalsNonNegative(rows: seq<DailyMetric>, c: Counter)
    requires AllWellFormed(rows)
    ensures 0 <= Sum(Counts(rows, c))
  {
    var col := Counts(rows, c);
    forall i | 0 <= i < |col| ensures 0 <= col[i] {
      assert WellFormed(rows[i]);
    }
    SumBoundsEach(col);
  }

  /** On well-formed rows the page's totals are non-negative and its rate a percentage. */
  lemma PageBounds(rows: seq<DailyMetric>, start: int, end: int)
    requires AllWellFormed(rows) && Page(rows, start, end).Ok?
    ensures var k := Page(rows, start, end).value;
      0 <= k.totalAnomalies && 0 <= k.totalHighRisk && 0 <= k.totalCritical &&
      0 <= k.totalTickets && 0.0 <= k.criticalRate <= 100.0
  {
    var f := Filter(rows, start, end);
    FilterWellFormed(rows, start, end);
    CounterTotalsNonNegative(f, Anomalies);
    CounterTotalsNonNegative(f, HighRisk);
    CounterTotalsNonNegative(f, Critical);
    CounterTotalsNonNegative(f, Tickets);
    forall i | 0 <= i < |f| ensures 0 <= f[i].criticalIncidents <= f[i].totalIncidents {
      assert WellFormed(f[i]);
    }
    CriticalRateBounds(f);
  }
}
