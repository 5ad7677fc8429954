/** components/HistoryChart.tsx: the plotted series and the fixed chart bounds. */
module HistoryChart {
  import opened Types
  import opened DailySummary

  /** One plotted point: the axis label, the score and the full time stamp. */
  datatype Point = Point(date: string, score: real, fullDate: string)

  /** The ideal band `ReferenceArea y1={2} y2={3}` and the y-axis `domain={[1, 7]}`. */
  const IdealLow: real := 2.0
  const IdealHigh: real := 3.0
  const DomainLow: real := 1.0
  const DomainHigh: real := 7.0

  /** The point for one report; `fmt` is `toLocaleDateString('zh-CN', ...)`, passed in. */
  function PointOf(r: HealthReport, fmt: string -> string): (p: Point)
    ensures p.score == r.score && p.fullDate == r.date && p.date == fmt(r.date)
  {
    Point(fmt(r.date), r.score, r.date)
  }

  /** `reports.slice().reverse().map(...)` (components/HistoryChart.tsx:20-24). The input is a
      value, so the copy `slice` makes is implicit: `reports` is not changed. */
  function Series(reports: seq<HealthReport>, fmt: string -> string): (points: seq<Point>)
    ensures |points| == |reports|
    ensures forall i :: 0 <= i < |points| ==> points[i] == PointOf(reports[|reports| - 1 - i], fmt)
  {
    if reports == [] then []
    else Series(reports[1..], fmt) + [PointOf(reports[0], fmt)]
  }

  /** A report put in front of a newest-first store is plotted last: the newest point is at
      the right end of the chart. */
  lemma NewestPlottedLast(r: HealthReport, reports: seq<HealthReport>, fmt: string -> string)
    ensures Series([r] + reports, fmt) == Series(reports, fmt) + [PointOf(r, fmt)]
  {
    assert ([r] + reports)[1..] == reports;
  }

  /** Reversing twice gives the store order back: point `i` counted from the right is the
      `i`-th report. */
  lemma SeriesFromTheRight(reports: seq<HealthReport>, fmt: string -> string, i: nat)
    requires i < |reports|
    ensures Series(reports, fmt)[|reports| - 1 - i] == PointOf(reports[i], fmt)
  {
  }

  /** The shaded band is exactly the scores the summary card calls healthy, and it lies
      inside the plotted range. */
  lemma BandIsHealthyRange(score: real)
    ensures IdealLow <= score <= IdealHigh <==> IsHealthy(score)
    ensures DomainLow <= IdealLow <= IdealHigh <= DomainHigh
  {
  }
}
