// The daily SOC metric series and the reductions the pages apply to its
// columns: sums of the integer counters, means of the real-valued columns,
// minima and maxima, and the trailing window taken by `tail(n)`.

module Metrics {

  import opened Common

  /** One row of the consolidated SOC frame; `date` is a day number. */
  datatype DailyMetric = DailyMetric(
    date: int,
    anomaliesDetected: int,
    highRiskSessions: int,
    criticalIncidents: int,
    totalIncidents: int,
    totalTickets: int,
    avgIncidentDurationDays: real,
    p95ResolutionMinutes: real,
    avgIpReputation: real)

  /** The integer columns of the frame. */
  datatype Counter = Anomalies | HighRisk | Critical | Incidents | Tickets

  /** The real-valued columns of the frame. */
  datatype Measure = Duration | P95Resolution | IpReputation

  function CountOf(row: DailyMetric, c: Counter): int
  {
    match c
    case Anomalies => row.anomaliesDetected
    case HighRisk => row.highRiskSessions
    case Critical => row.criticalIncidents
    case Incidents => row.totalIncidents
    case Tickets => row.totalTickets
  }

  function MeasureOf(row: DailyMetric, m: Measure): real
  {
    match m
    case Duration => row.avgIncidentDurationDays
    case P95Resolution => row.p95ResolutionMinutes
    case IpReputation => row.avgIpReputation
  }

  /** The domain a well-formed row lies in. */
  predicate WellFormed(row: DailyMetric)
  {
    0 <= row.anomaliesDetected && 0 <= row.highRiskSessions &&
    0 <= row.criticalIncidents <= row.totalIncidents && 0 <= row.totalTickets &&
    0.0 <= row.avgIncidentDurationDays && 0.0 <= row.p95ResolutionMinutes &&
    0.0 <= row.avgIpReputation <= 1.0
  }

  predicate AllWellFormed(rows: seq<DailyMetric>)
  {
    forall i :: 0 <= i < |rows| ==> WellFormed(rows[i])
  }

  /** Rows in ascending date order, as the metrics store delivers them. */
  predicate DateOrdered(rows: seq<DailyMetric>)
  {
    forall i, j :: 0 <= i < j < |rows| ==> rows[i].date <= rows[j].date
  }

  /** `df[column]` for an integer column. */
  function Counts(rows: seq<DailyMetric>, c: Counter): (col: seq<int>)
    ensures |col| == |rows|
    ensures forall i {:trigger col[i]} :: 0 <= i < |rows| ==> col[i] == CountOf(rows[i], c)
  {
    seq(|rows|, i requires 0 <= i < |rows| => CountOf(rows[i], c))
  }

  /** `df[column]` for a real-valued column. */
  function Measures(rows: seq<DailyMetric>, m: Measure): (col: seq<real>)
    ensures |col| == |rows|
    ensures forall i {:trigger col[i]} :: 0 <= i < |rows| ==> col[i] == MeasureOf(rows[i], m)
  {
    seq(|rows|, i requires 0 <= i < |rows| => MeasureOf(rows[i], m))
  }

  // ---------------------------------------------------------------------
  // Trailing window: `tail(n)`
  // ---------------------------------------------------------------------

  /** The last `n` elements of `s`, or all of `s` when it is shorter. */
  function Tail<T>(s: seq<T>, n: nat): (w: seq<T>)
    ensures |w| == if |s| < n then |s| else n
    ensures w == s[|s| - |w|..]
    ensures |s| <= n ==> w == s
  {
    if |s| <= n then s else s[|s| - n..]
  }

  /** Taking a column commutes with taking the trailing window. */
  lemma CountsTail(rows: seq<DailyMetric>, c: Counter, n: nat)
    ensures Counts(Tail(rows, n), c) == Tail(Counts(rows, c), n)
  {
    var w := Tail(rows, n);
    var a, b := Counts(w, c), Tail(Counts(rows, c), n);
    assert |a| == |b|;
    forall i | 0 <= i < |a| ensures a[i] == b[i] {
      assert w[i] == rows[|rows| - |w| + i];
    }
    assert a == b;
  }

  // ---------------------------------------------------------------------
  // Sums
  // ---------------------------------------------------------------------

  /** `column.sum()` over an integer column (0 for an empty column). */
  function Sum(xs: seq<int>): int
  {
    if xs == [] then 0 else xs[0] + Sum(xs[1..])
  }

  /** The sum over a concatenation is the sum of the sums. */
  lemma {:induction false} SumAppend(a: seq<int>, b: seq<int>)
    ensures Sum(a + b) == Sum(a) + Sum(b)
  {
    if a == [] {
      assert a + b == b;
    } else {
      assert (a + b)[1..] == a[1..] + b;
      SumAppend(a[1..], b);
    }
  }

  /** A sum of non-negative values is non-negative and bounds each of them. */
  lemma {:induction false} SumBoundsEach(xs: seq<int>)
    requires forall i :: 0 <= i < |xs| ==> 0 <= xs[i]
    ensures 0 <= Sum(xs)
    ensures forall i :: 0 <= i < |xs| ==> xs[i] <= Sum(xs)
  {
    if xs != [] {
      SumBoundsEach(xs[1..]);
      forall i | 1 <= i < |xs| ensures xs[i] <= Sum(xs) {
        assert xs[i] == xs[1..][i - 1];
      }
    }
  }

  /** Summing pointwise-smaller values gives a smaller sum. */
  lemma {:induction false} SumMonotone(xs: seq<int>, ys: seq<int>)
    requires |xs| == |ys|
    requires forall i :: 0 <= i < |xs| ==> xs[i] <= ys[i]
    ensures Sum(xs) <= Sum(ys)
  {
    if xs != [] {
      SumMonotone(xs[1..], ys[1..]);
    }
  }

  /** For non-negative values, the sum over a suffix is at most the sum over the whole. */
  lemma {:induction false} SumSuffixAtMost(xs: seq<int>, n: nat)
    requires forall i :: 0 <= i < |xs| ==> 0 <= xs[i]
    ensures 0 <= Sum(Tail(xs, n)) <= Sum(xs)
  {
    var w := Tail(xs, n);
    var k := |xs| - |w|;
    var p := xs[..k];
    assert forall i :: 0 <= i < |p| ==> p[i] == xs[i];
    assert forall i :: 0 <= i < |w| ==> w[i] == xs[k + i];
    assert p + w == xs;
    SumAppend(p, w);
    SumBoundsEach(p);
    SumBoundsEach(w);
  }

  // ---------------------------------------------------------------------
  // Means, minima, maxima over real columns
  // ---------------------------------------------------------------------

  function RealSum(xs: seq<real>): real
  {
    if xs == [] then 0.0 else xs[0] + RealSum(xs[1..])
  }

  /** `column.mean()` over a non-empty column. */
  function Mean(xs: seq<real>): real
    requires |xs| > 0
  {
    RealSum(xs) / (|xs| as real)
  }

  /** `column.min()` over a non-empty column. */
  function Min(xs: seq<real>): (m: real)
    requires |xs| > 0
    ensures m in xs
    ensures forall i :: 0 <= i < |xs| ==> m <= xs[i]
  {
    if |xs| == 1 then xs[0]
    else
      var rest := Min(xs[1..]);
      if xs[0] <= rest then xs[0] else rest
  }

  /** `column.max()` over a non-empty column. */
  function Max(xs: seq<real>): (m: real)
    requires |xs| > 0
    ensures m in xs
    ensures forall i :: 0 <= i < |xs| ==> xs[i] <= m
  {
    if |xs| == 1 then xs[0]
    else
      var rest := Max(xs[1..]);
      if rest <= xs[0] then xs[0] else rest
  }

  /** Every element bounded by `lo` and `hi` bounds the sum by `n*lo` and `n*hi`. */
  lemma {:induction false} RealSumBetween(xs: seq<real>, lo: real, hi: real)
    requires forall i :: 0 <= i < |xs| ==> lo <= xs[i] <= hi
    ensures (|xs| as real) * lo <= RealSum(xs) <= (|xs| as real) * hi
  {
    if xs != [] {
      RealSumBetween(xs[1..], lo, hi);
    }
  }

  /** A mean lies between the bounds of its elements. */
  lemma MeanBetween(xs: seq<real>, lo: real, hi: real)
    requires |xs| > 0
    requires forall i :: 0 <= i < |xs| ==> lo <= xs[i] <= hi
    ensures lo <= Mean(xs) <= hi
  {
    var n := |xs| as real;
    RealSumBetween(xs, lo, hi);
    assert n * lo <= RealSum(xs) <= n * hi;
    MulDivCancel(lo, n);
    MulDivCancel(hi, n);
    DivMonotone(n * lo, RealSum(xs), n);
    DivMonotone(RealSum(xs), n * hi, n);
  }

  lemma MulDivCancel(x: real, n: real)
    requires n > 0.0
    ensures (n * x) / n == x
  {
  }

  lemma DivMonotone(a: real, b: real, n: real)
    requires a <= b && n > 0.0
    ensures a / n <= b / n
  {
  }

  /** The mean of a column lies between its minimum and its maximum. */
  lemma MeanWithinMinMax(xs: seq<real>)
    requires |xs| > 0
    ensures Min(xs) <= Mean(xs) <= Max(xs)
  {
    MeanBetween(xs, Min(xs), Max(xs));
  }

  // ---------------------------------------------------------------------
  // The period covered by a frame
  // ---------------------------------------------------------------------

  /** `df['date'].min()` of a non-empty frame: the date of a row, and no row is earlier. */
  function FirstDay(rows: seq<DailyMetric>): (d: int)
    requires |rows| > 0
    ensures exists i :: 0 <= i < |rows| && rows[i].date == d
    ensures forall i :: 0 <= i < |rows| ==> d <= rows[i].date
  {
    if |rows| == 1 then rows[0].date
    else
      var rest := FirstDay(rows[1..]);
      if rows[0].date <= rest then rows[0].date else rest
  }

  /** `df['date'].max()` of a non-empty frame: the date of a row, and no row is later. */
  function LastDay(rows: seq<DailyMetric>): (d: int)
    requires |rows| > 0
    ensures exists i :: 0 <= i < |rows| && rows[i].date == d
    ensures forall i :: 0 <= i < |rows| ==> rows[i].date <= d
  {
    if |rows| == 1 then rows[0].date
    else
      var rest := LastDay(rows[1..]);
      if rest <= rows[0].date then rows[0].date else rest
  }

  /** On a date-ordered frame the earliest and latest dates are the first and last rows'. */
  lemma {:induction false} OrderedDateBounds(rows: seq<DailyMetric>)
    requires |rows| > 0 && DateOrdered(rows)
    ensures FirstDay(rows) == rows[0].date
    ensures LastDay(rows) == rows[|rows| - 1].date
  {
    if |rows| > 1 {
      var rest := rows[1..];
      assert DateOrdered(rest) by {
        forall i, j | 0 <= i < j < |rest| ensures rest[i].date <= rest[j].date {
          assert rest[i] == rows[i + 1] && rest[j] == rows[j + 1];
        }
      }
      OrderedDateBounds(rest);
      assert rows[0].date <= rows[1].date && rows[0].date <= rows[|rows| - 1].date;
    }
  }

  /** A trailing window of a date-ordered frame is date-ordered. */
  lemma TailOrdered(rows: seq<DailyMetric>, n: nat)
    requires DateOrdered(rows)
    ensures DateOrdered(Tail(rows, n))
  {
    var w := Tail(rows, n);
    var k := |rows| - |w|;
    forall i, j | 0 <= i < j < |w| ensures w[i].date <= w[j].date {
      assert w[i] == rows[k + i] && w[j] == rows[k + j];
    }
  }
}
