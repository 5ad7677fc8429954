/** CalendarView.tsx: the month grid, the day keys, the grouping of reports by day and the
    day list. The displayed month and the selected day are the state `CalendarView` holds. */
module Calendar {
  import opened Wrappers
  import opened Text
  import opened Types
  import opened JsDate

  /** `date.split('T')[0]`: the date part of an ISO time stamp, everything before the first
      'T'. */
  function DatePrefix(date: string): (r: string)
    ensures IsPrefix(r, date) && 'T' !in r
    ensures |r| < |date| ==> date[|r|] == 'T'
  {
    if date == [] || date[0] == 'T' then [] else [date[0]] + DatePrefix(date[1..])
  }

  /** It is the first piece of `split('T')`. */
  lemma DatePrefixIsFirstField(date: string)
    ensures Field(date, 'T', 0) == Some(DatePrefix(date))
  {
    FirstField(date, 'T');
    var p := DatePrefix(date);
    assert forall k :: 0 <= k < |p| ==> date[k] == p[k] && p[k] != 'T';
    match IndexOf(date, 'T')
    case None =>
      assert |p| == |date|;
      assert p == date[..|p|] == date;
    case Some(i) =>
      assert |p| == i;
      assert p == date[..i];
  }

  /** A time stamp that starts with a day key and a 'T' belongs to that day. */
  lemma DatePrefixOfStamp(key: string, rest: string)
    requires 'T' !in key
    ensures DatePrefix(key + "T" + rest) == key
  {
    var s := key + "T" + rest;
    assert s[|key|] == 'T';
    assert forall k :: 0 <= k < |key| ==> s[k] == key[k];
    assert s[..|key|] == key;
  }

  /** The reports whose date part is `key`, in store order. */
  function ReportsOn(reports: seq<HealthReport>, key: string): (rs: seq<HealthReport>)
    ensures |rs| <= |reports|
    ensures forall r :: r in rs <==> r in reports && DatePrefix(r.date) == key
  {
    if reports == [] then []
    else if DatePrefix(reports[0].date) == key then [reports[0]] + ReportsOn(reports[1..], key)
    else ReportsOn(reports[1..], key)
  }

  /** Grouping distributes over concatenation: inside a group, reports keep their input order. */
  lemma {:induction false} ReportsOnAppend(a: seq<HealthReport>, b: seq<HealthReport>, key: string)
    ensures ReportsOn(a + b, key) == ReportsOn(a, key) + ReportsOn(b, key)
  {
    if a != [] {
      assert (a + b)[0] == a[0];
      assert (a + b)[1..] == a[1..] + b;
      ReportsOnAppend(a[1..], b, key);
    } else {
      assert a + b == b;
    }
  }

  /** `groups` is `reportsByDate` for `reports`: a key is present exactly when some report has
      that date part, and its list is those reports in order. */
  ghost predicate IsGrouping(reports: seq<HealthReport>, groups: map<string, seq<HealthReport>>) {
    (forall key :: key in groups ==> groups[key] == ReportsOn(reports, key) && groups[key] != [])
    && (forall key :: key !in groups ==> ReportsOn(reports, key) == [])
  }

  /** A single report forms its own day's group and no other. */
  lemma ReportsOnSingle(report: HealthReport, key: string)
    ensures ReportsOn([report], key) == if DatePrefix(report.date) == key then [report] else []
  {
    assert [report][1..] == [];
  }

  /** One step of the `reduce`: the report joins the end of its day's list. */
  lemma GroupStep(done: seq<HealthReport>, report: HealthReport,
                  before: map<string, seq<HealthReport>>, after: map<string, seq<HealthReport>>)
    requires IsGrouping(done, before)
    requires var key := DatePrefix(report.date);
      after == before[key := (if key in before then before[key] else []) + [report]]
    ensures IsGrouping(done + [report], after)
  {
    var dateStr := DatePrefix(report.date);
    forall key | key in after
      ensures after[key] == ReportsOn(done + [report], key) && after[key] != []
    {
      ReportsOnAppend(done, [report], key);
      ReportsOnSingle(report, key);
    }
    forall key | key !in after
      ensures ReportsOn(done + [report], key) == []
    {
      ReportsOnAppend(done, [report], key);
      ReportsOnSingle(report, key);
    }
  }

  /** The step at position `i` of the input, stated on the prefixes the loop has seen. */
  lemma GroupStepAt(reports: seq<HealthReport>, i: nat,
                    before: map<string, seq<HealthReport>>, after: map<string, seq<HealthReport>>)
    requires i < |reports| && IsGrouping(reports[..i], before)
    requires var key := DatePrefix(reports[i].date);
      after == before[key := (if key in before then before[key] else []) + [reports[i]]]
    ensures IsGrouping(reports[..i + 1], after)
  {
    GroupStep(reports[..i], reports[i], before, after);
    assert reports[..i + 1] == reports[..i] + [reports[i]];
  }

  /** Creating the list when it is missing and then pushing is one update of the map. */
  lemma PushUpdate(before: map<string, seq<HealthReport>>, key: string, report: HealthReport)
    ensures var created := if key !in before then before[key := []] else before;
      created[key := created[key] + [report]]
      == before[key := (if key in before then before[key] else []) + [report]]
  {
  }

  /** The `reduce` of CalendarView.tsx:30-35: each report is pushed onto the list of its date
      part, which is created empty the first time. */
  method GroupByDate(reports: seq<HealthReport>) returns (groups: map<string, seq<HealthReport>>)
    ensures IsGrouping(reports, groups)
  {
    groups := map[];
    var i := 0;
    while i < |reports|
      invariant i <= |reports|
      invariant IsGrouping(reports[..i], groups)
    {
      var report := reports[i];
      var dateStr := DatePrefix(report.date);
      ghost var before := groups;
      if dateStr !in groups {
        groups := groups[dateStr := []];
      }
      groups := groups[dateStr := groups[dateStr] + [report]];
      PushUpdate(before, dateStr, report);
      GroupStepAt(reports, i, before, groups);
      i := i + 1;
    }
    assert reports[..i] == reports;
  }

  /** Total size of the groups named by `keys`. */
  function SumSizes(reports: seq<HealthReport>, keys: seq<string>): nat
  {
    if keys == [] then 0 else |ReportsOn(reports, keys[0])| + SumSizes(reports, keys[1..])
  }

  /** How often `key` occurs in `keys`. */
  function Count(key: string, keys: seq<string>): nat
  {
    if keys == [] then 0 else (if keys[0] == key then 1 else 0) + Count(key, keys[1..])
  }

  predicate Distinct(keys: seq<string>) {
    forall i, j :: 0 <= i < j < |keys| ==> keys[i] != keys[j]
  }

  lemma {:induction false} CountDistinct(key: string, keys: seq<string>)
    requires Distinct(keys)
    ensures Count(key, keys) == if key in keys then 1 else 0
  {
    if keys != [] {
      assert Distinct(keys[1..]) by {
        forall i, j | 0 <= i < j < |keys| - 1 ensures keys[1..][i] != keys[1..][j] {
          assert keys[1..][i] == keys[i + 1] && keys[1..][j] == keys[j + 1];
        }
      }
      CountDistinct(key, keys[1..]);
      if keys[0] == key {
        assert forall k :: 0 <= k < |keys| - 1 ==> keys[1..][k] == keys[k + 1];
      } else {
        assert key in keys <==> key in keys[1..] by {
          assert keys == [keys[0]] + keys[1..];
        }
      }
    }
  }

  lemma {:induction false} SumSizesCons(report: HealthReport, rest: seq<HealthReport>, keys: seq<string>)
    ensures SumSizes([report] + rest, keys) == Count(DatePrefix(report.date), keys) + SumSizes(rest, keys)
  {
    if keys != [] {
      assert ([report] + rest)[1..] == rest;
      SumSizesCons(report, rest, keys[1..]);
    }
  }

  lemma {:induction false} SumSizesEmpty(keys: seq<string>)
    ensures SumSizes([], keys) == 0
  {
    if keys != [] {
      SumSizesEmpty(keys[1..]);
    }
  }

  /** The groups named by a duplicate-free list of keys that covers every report's day hold,
      together, exactly as many reports as the input: no report is lost or counted twice. */
  lemma {:induction false} GroupSizesSum(reports: seq<HealthReport>, keys: seq<string>)
    requires Distinct(keys)
    requires forall k :: 0 <= k < |reports| ==> DatePrefix(reports[k].date) in keys
    ensures SumSizes(reports, keys) == |reports|
  {
    if reports == [] {
      SumSizesEmpty(keys);
    } else {
      assert reports == [reports[0]] + reports[1..];
      SumSizesCons(reports[0], reports[1..], keys);
      CountDistinct(DatePrefix(reports[0].date), keys);
      GroupSizesSum(reports[1..], keys);
    }
  }

  /** For the map the grouping builds: listing its keys once each, the group sizes add up to
      the number of reports. */
  lemma GroupingPartitions(reports: seq<HealthReport>, groups: map<string, seq<HealthReport>>, keys: seq<string>)
    requires IsGrouping(reports, groups)
    requires Distinct(keys) && forall key :: key in groups <==> key in keys
    ensures SumSizes(reports, keys) == |reports|
  {
    forall k | 0 <= k < |reports| ensures DatePrefix(reports[k].date) in keys {
      var key := DatePrefix(reports[k].date);
      assert reports[k] in ReportsOn(reports, key);
    }
    GroupSizesSum(reports, keys);
  }

  /** `filteredReports` (CalendarView.tsx:37): the selected day's group, or nothing when no
      day (or the empty string) is selected or the day has no reports. */
  function DayReports(groups: map<string, seq<HealthReport>>, selected: Option<string>): (rs: seq<HealthReport>)
    ensures selected.None? || selected.value == "" ==> rs == []
    ensures selected.Some? && selected.value != "" && selected.value in groups ==> rs == groups[selected.value]
    ensures selected.Some? && selected.value !in groups ==> rs == []
  {
    if selected.None? || selected.value == "" then []
    else if selected.value in groups then groups[selected.value]
    else []
  }

  /** The day list is exactly the selected day's reports, in store order. */
  lemma DayReportsAreThatDay(reports: seq<HealthReport>, groups: map<string, seq<HealthReport>>, selected: string)
    requires IsGrouping(reports, groups) && selected != ""
    ensures DayReports(groups, Some(selected)) == ReportsOn(reports, selected)
  {
  }

  /** `hasReports` (CalendarView.tsx:76, 91): whether a day shows its marker. */
  predicate HasMarker(groups: map<string, seq<HealthReport>>, key: string) {
    key in groups
  }

  /** A day shows a marker exactly when some report was made that day. */
  lemma MarkerIffReport(reports: seq<HealthReport>, groups: map<string, seq<HealthReport>>, key: string)
    requires IsGrouping(reports, groups)
    ensures HasMarker(groups, key) <==> exists k :: 0 <= k < |reports| && DatePrefix(reports[k].date) == key
  {
    if HasMarker(groups, key) {
      var r := groups[key][0];
      assert r in ReportsOn(reports, key);
    }
    if exists k :: 0 <= k < |reports| && DatePrefix(reports[k].date) == key {
      var k :| 0 <= k < |reports| && DatePrefix(reports[k].date) == key;
      assert reports[k] in ReportsOn(reports, key);
    }
  }

  /** `dStr` (CalendarView.tsx:75): `${year}-${MM}-${DD}` with the month counted from 1. */
  function DayKey(year: int, month: nat, day: nat): (key: string)
    ensures 'T' !in key
  {
    var y, mm, dd := IntToString(year), PadStart2(NatToString(month + 1)), PadStart2(NatToString(day));
    IntNoT(year);
    PadNoT(NatToString(month + 1));
    PadNoT(NatToString(day));
    NoTConcat(y, "-");
    NoTConcat(y + "-", mm);
    NoTConcat(y + "-" + mm, "-");
    NoTConcat(y + "-" + mm + "-", dd);
    y + "-" + mm + "-" + dd
  }

  lemma NoTConcat(a: string, b: string)
    requires 'T' !in a && 'T' !in b
    ensures 'T' !in a + b
  {
  }

  /** `String(n)` holds no 'T'. */
  lemma IntNoT(n: int)
    ensures 'T' !in IntToString(n)
  {
    var d := NatToString(if n < 0 then -n else n);
    assert forall k :: 0 <= k < |d| ==> d[k] != 'T';
    if n < 0 {
      NoTConcat("-", d);
    }
  }

  /** Zero-padding a run of digits adds no 'T'. */
  lemma PadNoT(s: string)
    requires IsDigits(s)
    ensures 'T' !in PadStart2(s)
  {
    var r := PadStart2(s);
    forall k | 0 <= k < |r|
      ensures r[k] != 'T'
    {
      if k >= |r| - |s| {
        assert r[k] == r[|r| - |s|..][k - (|r| - |s|)];
      }
    }
  }

  /** Where the parts of a five-part concatenation sit. */
  lemma FiveParts(a: string, b: string, c: string, d: string, e: string)
    ensures var s, i, j, k, l := a + b + c + d + e, |a|, |a| + |b|, |a| + |b| + |c|, |a| + |b| + |c| + |d|;
      |s| == l + |e| && s[..i] == a && s[i..j] == b && s[j..k] == c && s[k..l] == d && s[l..] == e
  {
  }

  /** Two keys with two-character month and day parts agree part by part. */
  lemma SameParts(a1: string, b1: string, c1: string, a2: string, b2: string, c2: string)
    requires |b1| == 2 && |c1| == 2 && |b2| == 2 && |c2| == 2
    requires a1 + "-" + b1 + "-" + c1 == a2 + "-" + b2 + "-" + c2
    ensures a1 == a2 && b1 == b2 && c1 == c2
  {
    var key := a1 + "-" + b1 + "-" + c1;
    FiveParts(a1, "-", b1, "-", c1);
    FiveParts(a2, "-", b2, "-", c2);
    var n := |a1|;
    assert a1 == key[..n] == a2;
    assert b1 == key[n + 1..n + 3] == b2;
    assert c1 == key[n + 4..] == c2;
  }

  /** Where the three parts of `y-mm-dd` sit when `mm` and `dd` have two characters. */
  lemma KeyLayout(y: string, mm: string, dd: string)
    requires |mm| == 2 && |dd| == 2
    ensures var key, n := y + "-" + mm + "-" + dd, |y|;
      |key| == n + 6 && key[..n] == y && key[n] == '-' && key[n + 3] == '-'
      && key[n + 1..n + 3] == mm && key[n + 4..] == dd
  {
    FiveParts(y, "-", mm, "-", dd);
  }

  /** The key reads `year-MM-DD`: the year's digits, then the month counted from 1 and the
      day, each as exactly two digits, zero-padded. */
  lemma DayKeyLayout(year: int, month: nat, day: nat)
    requires month < 12 && 1 <= day <= 31
    ensures var key, n := DayKey(year, month, day), |IntToString(year)|;
      |key| == n + 6 && key[..n] == IntToString(year) && key[n] == '-' && key[n + 3] == '-'
      && IsDigits(key[n + 1..n + 3]) && DecimalValue(key[n + 1..n + 3]) == month + 1
      && IsDigits(key[n + 4..]) && DecimalValue(key[n + 4..]) == day
  {
    var y, mm, dd := IntToString(year), PadStart2(NatToString(month + 1)), PadStart2(NatToString(day));
    TwoDigits(month + 1);
    TwoDigits(day);
    assert DayKey(year, month, day) == y + "-" + mm + "-" + dd;
    KeyLayout(y, mm, dd);
  }

  /** Different days of the grid have different keys. */
  lemma DayKeyInjective(y1: int, m1: nat, d1: nat, y2: int, m2: nat, d2: nat)
    requires m1 < 12 && m2 < 12 && 1 <= d1 <= 31 && 1 <= d2 <= 31
    requires DayKey(y1, m1, d1) == DayKey(y2, m2, d2)
    ensures y1 == y2 && m1 == m2 && d1 == d2
  {
    TwoDigits(m1 + 1);
    TwoDigits(d1);
    TwoDigits(m2 + 1);
    TwoDigits(d2);
    SameParts(IntToString(y1), PadStart2(NatToString(m1 + 1)), PadStart2(NatToString(d1)),
              IntToString(y2), PadStart2(NatToString(m2 + 1)), PadStart2(NatToString(d2)));
    IntToStringInjective(y1, y2);
  }

  /** `offset` blanks followed by the numbered days 1..`days`. */
  function GridCells(offset: nat, days: nat): (cells: seq<Option<nat>>)
    ensures |cells| == offset + days
    ensures forall k :: 0 <= k < offset ==> cells[k] == None
    ensures forall k :: offset <= k < |cells| ==> cells[k] == Some(k - offset + 1)
  {
    var blanks: seq<Option<nat>> := seq(offset, _ => None);
    var numbered: seq<Option<nat>> := seq(days, i => Some(i + 1));
    assert forall k :: offset <= k < offset + days ==> (blanks + numbered)[k] == numbered[k - offset];
    blanks + numbered
  }

  /** The month grid (CalendarView.tsx:24-28): the week day of the 1st (0..6) in blanks,
      then one cell for each day of the month. */
  function Grid(year: int, month: nat): (cells: seq<Option<nat>>)
    requires month < 12
    ensures var offset, days := FirstWeekday(year, month), DaysInMonth(year, month);
      0 <= offset < 7 && days == MonthLength(JsYear(year), month) && |cells| == offset + days
      && (forall k :: 0 <= k < offset ==> cells[k] == None)
      && (forall k :: offset <= k < |cells| ==> cells[k] == Some(k - offset + 1))
  {
    DaysInMonthGregorian(year, month);
    GridCells(FirstWeekday(year, month), DaysInMonth(year, month))
  }

  datatype Dot = Green | Amber

  /** A report's dot in the day list (CalendarView.tsx:138). */
  function DotColor(score: real): (d: Dot)
    ensures d == Green <==> score == 2.0
  {
    if score == 2.0 then Green else Amber
  }

  /** The delete button (CalendarView.tsx:128-131): the id goes to `onDeleteReport` only once
      the user confirms. */
  function DeleteRequest(confirmed: bool, report: HealthReport): (id: Option<string>)
    ensures id.Some? <==> confirmed
    ensures id.Some? ==> id.value == report.id
  {
    if confirmed then Some(report.id) else None
  }

  /** `prevMonth`/`nextMonth` away from the years 0..99 move exactly one month, rolling the
      year over at January and December. */
  lemma MonthStepExact(year: int, month: int)
    requires 0 <= month < 12 && !(0 <= year <= 99)
    ensures var (y, m) := MakeMonth(JsYear(year), month + 1);
      12 * y + m == 12 * year + month + 1 && (month == 11 ==> y == year + 1 && m == 0)
      && (month < 11 ==> y == year && m == month + 1)
    ensures var (y, m) := MakeMonth(JsYear(year), month - 1);
      12 * y + m == 12 * year + month - 1 && (month == 0 ==> y == year - 1 && m == 11)
      && (month > 0 ==> y == year && m == month - 1)
  {
  }

  /** The constructor reads the year 99 as 1999, so "next month" from December 99 shows
      January 2000. */
  lemma TwoDigitYearJump()
    ensures MakeMonth(JsYear(99), 12) == (2000, 0)
  {
  }

  /** The calendar's state: `currentDate` as its year and month, and `selectedDate`. */
  class CalendarView {
    var year: int
    var month: int
    var selected: Option<string>

    predicate Valid()
      reads this
    {
      0 <= month < 12
    }

    /** The first render (CalendarView.tsx:13-14): today's month, and today's date part of
        `new Date().toISOString()` selected. */
    constructor (todayYear: int, todayMonth: int, nowIso: string)
      requires 0 <= todayMonth < 12
      ensures Valid() && year == todayYear && month == todayMonth
      ensures selected == Some(DatePrefix(nowIso))
    {
      year := todayYear;
      month := todayMonth;
      selected := Some(DatePrefix(nowIso));
    }

    /** `prevMonth` (CalendarView.tsx:19): `new Date(year, month - 1)`. */
    method PrevMonth()
      requires Valid()
      modifies this`year, this`month
      ensures Valid()
      ensures (year, month) == MakeMonth(JsYear(old(year)), old(month) - 1)
    {
      var ym := MakeMonth(JsYear(year), month - 1);
      year, month := ym.0, ym.1;
    }

    /** `nextMonth` (CalendarView.tsx:20): `new Date(year, month + 1)`. */
    method NextMonth()
      requires Valid()
      modifies this`year, this`month
      ensures Valid()
      ensures (year, month) == MakeMonth(JsYear(old(year)), old(month) + 1)
    {
      var ym := MakeMonth(JsYear(year), month + 1);
      year, month := ym.0, ym.1;
    }

    /** A click on a day cell (CalendarView.tsx:83). */
    method SelectDay(day: nat)
      requires Valid()
      modifies this`selected
      ensures selected == Some(DayKey(year, month, day))
    {
      selected := Some(DayKey(year, month, day));
    }

    /** The shown month's cells. */
    function Cells(): (cells: seq<Option<nat>>)
      reads this
      requires Valid()
      ensures cells == Grid(year, month)
      ensures |cells| == FirstWeekday(year, month) + DaysInMonth(year, month)
      ensures forall k :: 0 <= k < FirstWeekday(year, month) ==> cells[k] == None
      ensures forall k :: FirstWeekday(year, month) <= k < |cells| ==> cells[k] == Some(k - FirstWeekday(year, month) + 1)
    {
      Grid(year, month)
    }
  }
}
