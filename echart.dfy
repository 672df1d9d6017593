/** The dashboard job (`auto/daily_prepare_data_for_echart.py`): the
    day-of-year climatology rotated to a July-to-June axis, one 365-day
    series and one freeze-up date per season from 1992 on, the latest
    forecast from the weekly log, the climatological freeze-up date and
    the frozen flag, ready to be written as JSON. */
module Echart {
  import opened Wrappers
  import opened Calendar
  import opened Text
  import opened Numeric
  import opened Series
  import YearlyQc
  import WeeklyForecast
  import Predictors

  const FirstSeason: int := 1992
  const SeasonLength: int := 365
  /** Index of the first July entry in a climatology without day 366. */
  const JulyIndex: int := 182
  const IndexError: string := "index -1 is out of bounds"
  const BadDayOfYear: string := "unconverted data remains"
  const BadDate: string := "Error parsing datetime string"
  const NoFile: string := "No such file or directory"
  const KeyError: string := "not all values found in index 'Date'"

  // ---------------------------------------------------------------------
  // Climatology on the July-to-June axis

  /** `values[0:-1]`: the last group, day-of-year 366, dropped. */
  function DropLast<T>(c: seq<T>): (r: seq<T>)
    ensures |c| > 0 ==> |r| == |c| - 1 && forall i :: 0 <= i < |r| ==> r[i] == c[i]
    ensures |c| == 0 ==> r == []
  {
    if c == [] then [] else c[..|c| - 1]
  }

  /** `hstack([c[182:], c[:182]])`: the same values, starting in July and
      wrapping round to the start. */
  function Rotated<T>(c: seq<T>): (r: seq<T>)
    ensures |r| == |c|
    ensures |c| >= JulyIndex ==> forall i :: 0 <= i < |c| - JulyIndex ==> r[i] == c[i + JulyIndex]
    ensures |c| >= JulyIndex ==> forall i :: |c| - JulyIndex <= i < |c| ==> r[i] == c[i - (|c| - JulyIndex)]
    ensures |c| < JulyIndex ==> r == c
  {
    var k := if |c| < JulyIndex then |c| else JulyIndex;
    c[k..] + c[..k]
  }

  /** The rotation only reorders: with 366 day-of-year groups the axis has
      365 entries, starting with day-of-year 183 and wrapping after day 365
      to day 1. */
  lemma ClimatologyAxis<T>(groups: seq<T>)
    requires |groups| == 366
    ensures |Rotated(DropLast(groups))| == SeasonLength
    ensures forall i :: 0 <= i < SeasonLength - JulyIndex ==> Rotated(DropLast(groups))[i] == groups[i + JulyIndex]
    ensures forall i :: SeasonLength - JulyIndex <= i < SeasonLength ==>
      Rotated(DropLast(groups))[i] == groups[i - (SeasonLength - JulyIndex)]
  {
    var c := DropLast(groups);
    assert |c| == SeasonLength;
  }

  /** NaN-propagating difference (`max - min`). */
  function Minus(a: Option<real>, b: Option<real>): Option<real> {
    if a.Some? && b.Some? then Some(a.value - b.value) else None
  }

  function Range(mx: seq<Option<real>>, mn: seq<Option<real>>): (r: seq<Option<real>>)
    requires |mx| == |mn|
    ensures |r| == |mx| && forall i :: 0 <= i < |mx| ==> r[i] == Minus(mx[i], mn[i])
  {
    seq(|mx|, i requires 0 <= i < |mx| => Minus(mx[i], mn[i]))
  }

  // ---------------------------------------------------------------------
  // Text helpers

  /** Python's slicing `s[i:j]` of a string, clamped to its length. */
  function Slice(s: string, i: nat, j: nat): (r: string)
    requires i <= j
    ensures j <= |s| ==> r == s[i..j]
    ensures |r| <= j - i
  {
    var a := if i < |s| then i else |s|;
    var b := if j < |s| then j else |s|;
    s[a..b]
  }

  /** `strptime(str(y) + " " + str(j), "%Y %j")`: a four-digit year and
      a day-of-year of one to three digits up to 366, counted from Jan 1
      without checking the year's length. */
  function DayOfYearDate(y: int, j: int): (r: Result<Date>)
    ensures r.Ok? <==> 1000 <= y <= 9999 && 1 <= j <= 366
    ensures r.Ok? && j <= DaysInYear(y) ==> r.value == FromDayOfYear(y, j)
    ensures r.Ok? && j == 366 && !IsLeap(y) ==> r.value == Date(y + 1, 1, 1)
  {
    if 1000 <= y <= 9999 && 1 <= j <= 366 then
      FromDayOfYearOfDate(Date(y + 1, 1, 1));
      Ok(JanFirstPlus(y, j - 1))
    else if 1000 <= y <= 9999 then Err(BadDayOfYear)
    else Err(BadDate)
  }

  /** Four digits, a dash, then `MM-DD` of a valid date
      (`np.datetime64` of an issue date). */
  function ParseIsoDate(s: string): (r: Option<Date>)
    ensures r.Some? ==> |s| == 10 && ValidDate(r.value) && MonthDay(r.value) == s[5..]
  {
    if |s| == 10 && s[4] == '-' && AllDigits(s[..4]) then
      match ParseMonthDay(s[5..])
      case Some((m, d)) =>
        var dt := Date(DigitsValue(s[..4]), m, d);
        if ValidDate(dt) && MonthDay(dt) == s[5..] then Some(dt) else None
      case None => None
    else None
  }

  // ---------------------------------------------------------------------
  // The latest forecast

  /** The season whose logs are read: the previous year before June. */
  function ForecastYear(thisyear: int, thismonth: int): int {
    if thismonth < 6 then thisyear - 1 else thisyear
  }

  /** In every month the forecast job runs, the dashboard reads the
      season year that job writes. */
  lemma ForecastYearIsSeason(thisyear: int, thismonth: int)
    requires 1 <= thismonth <= 12 && thismonth != 5 && thismonth != 6
    ensures Predictors.SeasonYear(thisyear, thismonth) == Ok(ForecastYear(thisyear, thismonth))
  {
  }

  /** `time[-1]`: the issue date of the last row. */
  function LatestIssued(rows: seq<WeeklyForecast.LogRow>): (r: Result<string>)
    ensures r.Ok? <==> rows != []
    ensures rows != [] ==> r.value == rows[|rows| - 1].issued
  {
    if rows == [] then Err(IndexError) else Ok(rows[|rows| - 1].issued)
  }

  /** The FUD values of the mean rows (`number == 0`) issued on `issued`. */
  function MeanFuds(rows: seq<WeeklyForecast.LogRow>, issued: string): (xs: seq<real>)
    ensures |xs| <= |rows|
    decreases |rows|
  {
    if rows == [] then []
    else
      var last := rows[|rows| - 1];
      MeanFuds(rows[..|rows| - 1], issued) + (if last.issued == issued && last.number == 0 then [last.fud as real] else [])
  }

  lemma {:induction false} MeanFudsAppend(a: seq<WeeklyForecast.LogRow>, b: seq<WeeklyForecast.LogRow>, issued: string)
    ensures MeanFuds(a + b, issued) == MeanFuds(a, issued) + MeanFuds(b, issued)
    decreases |b|
  {
    if b == [] {
      assert a + b == a;
    } else {
      assert (a + b)[..|a + b| - 1] == a + b[..|b| - 1];
      MeanFudsAppend(a, b[..|b| - 1], issued);
    }
  }

  /** Only the first row of a run is a mean row. */
  lemma {:induction false} MeanFudsOfRun(run: seq<WeeklyForecast.LogRow>, issued: string)
    requires run != [] && forall i :: 0 <= i < |run| ==> run[i].issued == issued && run[i].number == i
    ensures MeanFuds(run, issued) == [run[0].fud as real]
    decreases |run|
  {
    if |run| > 1 {
      var init := run[..|run| - 1];
      assert forall i :: 0 <= i < |init| ==> init[i] == run[i];
      MeanFudsOfRun(init, issued);
    }
  }

  /** After a forecast run the dashboard's latest issue date is the
      run's, and the mean rows of that date are the earlier ones of the
      same date followed by the run's mean row. */
  lemma LatestIsLastRun(before: seq<WeeklyForecast.LogRow>, run: seq<WeeklyForecast.LogRow>, issued: string)
    requires run != [] && forall i :: 0 <= i < |run| ==> run[i].issued == issued && run[i].number == i
    ensures LatestIssued(before + run) == Ok(issued)
    ensures MeanFuds(before + run, issued) == MeanFuds(before, issued) + [run[0].fud as real]
  {
    MeanFudsAppend(before, run, issued);
    MeanFudsOfRun(run, issued);
  }

  /** The mean FUD of the mean rows issued on `issued`; NaN, which the
      conversion to an integer rejects, when there is none. */
  function MeanFud(rows: seq<WeeklyForecast.LogRow>, issued: string): (r: Result<real>)
    ensures r.Ok? <==> MeanFuds(rows, issued) != []
  {
    var xs := MeanFuds(rows, issued);
    if xs == [] then Err("cannot convert float NaN to integer") else Ok(Mean(xs))
  }

  /** The choice between the weekly and the monthly forecast by their
      latest issue dates: the weekly one unless it is the older. */
  function Choose(weekly: seq<WeeklyForecast.LogRow>, monthly: seq<WeeklyForecast.LogRow>, lw: string, lm: string): (r: Result<(string, real)>)
    ensures r.Ok? ==> ParseIsoDate(lw).Some? && ParseIsoDate(lm).Some?
    ensures r.Ok? && !Before(ParseIsoDate(lw).value, ParseIsoDate(lm).value) ==>
      MeanFud(weekly, lw).Ok? && r == Ok((lw, MeanFud(weekly, lw).value))
    ensures r.Ok? && Before(ParseIsoDate(lw).value, ParseIsoDate(lm).value) ==>
      MeanFud(monthly, lm).Ok? && r == Ok((lm, MeanFud(monthly, lm).value))
  {
    var dw := ParseIsoDate(lw);
    var dm := ParseIsoDate(lm);
    if dw.None? || dm.None? then Err(BadDate)
    else
      var useWeekly := !Before(dw.value, dm.value);
      var x := if useWeekly then MeanFud(weekly, lw) else MeanFud(monthly, lm);
      if x.Err? then Err(x.msg) else Ok((if useWeekly then lw else lm, x.value))
  }

  /** The latest forecast's issue date and mean FUD, as the source compares
      them: the "monthly" date is read from the weekly log as well. */
  function Latest(weekly: seq<WeeklyForecast.LogRow>, monthly: seq<WeeklyForecast.LogRow>): (r: Result<(string, real)>)
    ensures r.Ok? ==> weekly != [] && r.value.0 == weekly[|weekly| - 1].issued
  {
    var lw := LatestIssued(weekly);
    if lw.Err? then Err(lw.msg) else Choose(weekly, monthly, lw.value, lw.value)
  }

  /** The monthly log never matters: the result is the mean of the weekly
      log's mean rows of its last issue date. */
  lemma WeeklyAlwaysChosen(weekly: seq<WeeklyForecast.LogRow>, m1: seq<WeeklyForecast.LogRow>, m2: seq<WeeklyForecast.LogRow>)
    ensures Latest(weekly, m1) == Latest(weekly, m2)
    ensures Latest(weekly, m1).Ok? ==>
      Latest(weekly, m1).value.1 == Mean(MeanFuds(weekly, weekly[|weekly| - 1].issued))
  {
    if weekly != [] {
      var d := ParseIsoDate(weekly[|weekly| - 1].issued);
      if d.Some? {
        assert !Before(d.value, d.value);
      }
    }
  }

  /** The date of the latest FUD as the source converts it: a value below
      182 is a day of season year + 1, anything else a day of the season
      year, through `strptime("%Y %j")`. */
  function LatestDateAsWritten(tyear: int, fud: real): (r: Result<Date>)
    ensures var y := if fud < 182.0 then tyear + 1 else tyear;
      r.Ok? <==> 1000 <= y <= 9999 && 1 <= Trunc(fud) <= 366
    ensures Trunc(fud) >= 367 ==> r.Err?
  {
    if fud < 182.0 then DayOfYearDate(tyear + 1, Trunc(fud)) else DayOfYearDate(tyear, Trunc(fud))
  }

  /** A forecast FUD of 370 (January 5 of the next year, in the FUDoy
      convention the forecast writes) makes the conversion fail. */
  lemma LatestDateRejectsJanuary(tyear: int)
    requires 1000 <= tyear <= 9998
    ensures Trunc(370.0) == 370
    ensures LatestDateAsWritten(tyear, 370.0).Err?
    ensures LatestDate(tyear, 370.0) == Ok(Date(tyear + 1, 1, 5))
  {
    FromDayOfYearOfDate(Date(tyear + 1, 1, 5));
  }

  /** The date of the latest FUD with values past 365 read as days of the
      next year, as the forecast job writes them. */
  function LatestDate(tyear: int, fud: real): (r: Result<Date>)
    ensures 1000 <= tyear <= 9998 && 1 <= Trunc(fud) <= 730 ==> r.Ok?
    ensures 1000 <= tyear <= 9998 && 366 <= Trunc(fud) <= 730 ==> r == Ok(FromDayOfYear(tyear + 1, Trunc(fud) - 365))
  {
    var j := Trunc(fud);
    if fud < 182.0 then DayOfYearDate(tyear + 1, j)
    else if j > 365 then DayOfYearDate(tyear + 1, j - 365)
    else DayOfYearDate(tyear, j)
  }

  /** Up to day 365 the corrected conversion is the source's. */
  lemma LatestDateAgrees(tyear: int, fud: real)
    requires Trunc(fud) <= 365
    ensures LatestDate(tyear, fud) == LatestDateAsWritten(tyear, fud)
  {
  }

  /** For a whole-number FUD from 182 on, the dashboard shows the date the
      forecast job computes, in a common season year and past day 365. */
  lemma LatestDateIsForecastDate(tyear: int, n: int)
    requires 1000 <= tyear <= 9998 && 182 <= n <= 730
    requires !IsLeap(tyear) || n > 365
    ensures LatestDate(tyear, n as real) == Ok(WeeklyForecast.ForecastDate(tyear, n as real))
  {
    RoundOfInteger(n);
    assert Trunc(n as real) == n;
  }

  // ---------------------------------------------------------------------
  // Season windows

  /** The first day of season `y`: day-of-year 183 in a leap year, 182
      otherwise, which is July 1 either way. */
  function WindowStart(y: int): (d: Date)
    ensures d == Date(y, 7, 1)
  {
    FromDayOfYearOfDate(Date(y, 7, 1));
    FromDayOfYear(y, if IsLeap(y) then 183 else 182)
  }

  /** The last day of season `y`: day-of-year 181 of `y + 1`, June 30, or
      June 29 when `y + 1` is a leap year. */
  function WindowEnd(y: int): (d: Date)
    ensures d == Date(y + 1, 6, if IsLeap(y + 1) then 29 else 30)
  {
    FromDayOfYearOfDate(Date(y + 1, 6, if IsLeap(y + 1) then 29 else 30));
    FromDayOfYear(y + 1, 181)
  }

  /** Every season window spans 365 days. */
  lemma WindowSpans365(y: int)
    ensures DayNumber(WindowEnd(y)) - DayNumber(WindowStart(y)) + 1 == SeasonLength
  {
    YearStartStep(y);
  }

  /** The window's days as day numbers (`pd.date_range`, both ends). */
  function WindowDays(y: int): (ds: seq<int>)
    ensures |ds| == SeasonLength
    ensures ds[0] == DayNumber(WindowStart(y)) && ds[SeasonLength - 1] == DayNumber(WindowEnd(y))
    ensures forall i :: 0 <= i < SeasonLength - 1 ==> ds[i + 1] == ds[i] + 1
  {
    WindowSpans365(y);
    seq(SeasonLength, i requires 0 <= i < SeasonLength => DayNumber(WindowStart(y)) + i)
  }

  // ---------------------------------------------------------------------
  // Current and past seasons

  /** The exclusive end of the season loop. */
  function LoopEnd(thisyear: int, thismonth: int): int {
    if thismonth > 6 then thisyear + 1 else thisyear
  }

  /** The source's test for the current season:
      `(tyear > thisyear) | ((y == tyear - 1) & (thismonth <= 6))`. */
  predicate IsCurrentAsWritten(y: int, thisyear: int, thismonth: int)
    ensures IsCurrentAsWritten(y, thisyear, thismonth) <==> thismonth > 6 || y == thisyear - 1
  {
    var tyear := LoopEnd(thisyear, thismonth);
    tyear > thisyear || (y == tyear - 1 && thismonth <= 6)
  }

  /** From July on the test holds for every season, so 1992 counts as
      current in July 2023. */
  lemma EverySeasonCurrentFromJuly(y: int, thisyear: int, thismonth: int)
    requires 7 <= thismonth <= 12
    ensures IsCurrentAsWritten(y, thisyear, thismonth)
  {
  }

  /** The season under way: the last one of the loop. */
  predicate IsCurrent(y: int, thisyear: int, thismonth: int)
    ensures IsCurrent(y, thisyear, thismonth) <==> y == (if thismonth > 6 then thisyear else thisyear - 1)
  {
    y == LoopEnd(thisyear, thismonth) - 1
  }

  /** Exactly one season is current, the one containing today, and before
      July the corrected test is the source's. */
  lemma CurrentSeasonUnique(y: int, thisyear: int, thismonth: int)
    requires 1 <= thismonth <= 12
    ensures IsCurrent(y, thisyear, thismonth) <==> y == (if thismonth <= 6 then thisyear - 1 else thisyear)
    ensures thismonth <= 6 ==> (IsCurrent(y, thisyear, thismonth) <==> IsCurrentAsWritten(y, thisyear, thismonth))
  {
  }

  /** Which form of the two tests the job runs: the script's own, or the
      evidently intended one (the last season alone is current, and a FUD
      past day 365 is a day of the next year). */
  datatype Reading = AsWritten | Intended

  predicate Current(rd: Reading, y: int, thisyear: int, thismonth: int) {
    if rd == AsWritten then IsCurrentAsWritten(y, thisyear, thismonth) else IsCurrent(y, thisyear, thismonth)
  }

  /** The date of the latest FUD under either reading. */
  function FudDate(rd: Reading, tyear: int, fud: real): (r: Result<Date>)
    ensures rd == AsWritten ==> r == LatestDateAsWritten(tyear, fud)
    ensures rd == Intended ==> r == LatestDate(tyear, fud)
  {
    if rd == AsWritten then LatestDateAsWritten(tyear, fud) else LatestDate(tyear, fud)
  }

  /** The samples of the updated store from the window's first midnight
      to its last midnight (`sel(Date=slice(...))`), in store order. */
  function InWindow(s: seq<Sample>, y: int): (r: seq<Sample>)
    ensures |r| <= |s|
    ensures forall i :: 0 <= i < |r| ==>
      r[i] in s
      && DayNumber(WindowStart(y)) * SecondsPerDay <= r[i].time <= DayNumber(WindowEnd(y)) * SecondsPerDay
    decreases |s|
  {
    if s == [] then []
    else
      var rest := InWindow(s[..|s| - 1], y);
      var x := s[|s| - 1];
      if DayNumber(WindowStart(y)) * SecondsPerDay <= x.time <= DayNumber(WindowEnd(y)) * SecondsPerDay then rest + [x]
      else rest
  }

  /** The mean of the present values (`mean()` skips NaN), NaN if none. */
  function NanMean(s: seq<Option<real>>): (r: Option<real>)
    ensures r.Some? <==> exists i :: 0 <= i < |s| && s[i].Some?
  {
    var xs := Present(s);
    if xs == [] then None else Some(Mean(xs))
  }

  function Present(s: seq<Option<real>>): (xs: seq<real>)
    ensures xs == [] <==> forall i :: 0 <= i < |s| ==> s[i].None?
    decreases |s|
  {
    if s == [] then []
    else
      var rest := Present(s[..|s| - 1]);
      assert forall i :: 0 <= i < |s| - 1 ==> s[..|s| - 1][i] == s[i];
      if s[|s| - 1].Some? then rest + [s[|s| - 1].value] else rest
  }

  function MinusOffset(s: seq<Sample>, offset: Option<real>): (r: seq<Option<real>>)
    ensures |r| == |s| && forall i :: 0 <= i < |s| ==> r[i] == Minus(s[i].temp, offset)
  {
    seq(|s|, i requires 0 <= i < |s| => Minus(s[i].temp, offset))
  }

  /** `tw_out[tw_out < 0] = 0`: negatives clamped, NaN left alone. */
  function Clamped(s: seq<Option<real>>): (r: seq<Option<real>>)
    ensures |r| == |s|
    ensures forall i :: 0 <= i < |s| ==> (s[i].Some? && s[i].value < 0.0 ==> r[i] == Some(0.0))
    ensures forall i :: 0 <= i < |s| ==> (!(s[i].Some? && s[i].value < 0.0) ==> r[i] == s[i])
  {
    seq(|s|, i requires 0 <= i < |s| => if s[i].Some? && s[i].value < 0.0 then Some(0.0) else s[i])
  }

  /** Clamping leaves no negative value and is idempotent. */
  lemma ClampedNonNegative(s: seq<Option<real>>)
    ensures forall i :: 0 <= i < |s| ==> Clamped(s)[i].None? || Clamped(s)[i].value >= 0.0
    ensures Clamped(Clamped(s)) == Clamped(s)
  {
  }

  /** The in-place clamp on the season's array. */
  method ClampNegatives(a: array<Option<real>>)
    modifies a
    ensures a[..] == Clamped(old(a[..]))
  {
    var i := 0;
    while i < a.Length
      invariant 0 <= i <= a.Length
      invariant forall k :: 0 <= k < i ==> a[k] == Clamped(old(a[..]))[k]
      invariant forall k :: i <= k < a.Length ==> a[k] == old(a[k])
    {
      if a[i].Some? && a[i].value < 0.0 {
        a[i] := Some(0.0);
      }
      i := i + 1;
    }
  }

  /** `list(s) + [nan] * (n - len(s))`. */
  function Padded(s: seq<Option<real>>, n: int): (r: seq<Option<real>>)
    ensures |s| <= n ==> |r| == n
    ensures |s| > n ==> r == s
    ensures forall i :: 0 <= i < |s| ==> r[i] == s[i]
    ensures forall i :: |s| <= i < |r| ==> r[i].None?
  {
    if |s| >= n then s else s + seq(n - |s|, _ => None)
  }

  /** The preprocessed value of each day of the window (`sel(Date=ctime)`),
      failing on a day the store does not have. */
  function PastSeries(pre: seq<YearlyQc.Daily>, days: seq<int>): (r: Result<seq<Option<real>>>)
    ensures r.Ok? <==> forall i :: 0 <= i < |days| ==> Lookup(pre, days[i]).Some?
    ensures r.Ok? ==> |r.value| == |days| && forall i :: 0 <= i < |days| ==> Lookup(pre, days[i]) == Some(r.value[i])
    decreases |days|
  {
    if days == [] then Ok([])
    else
      var init := days[..|days| - 1];
      assert forall i :: 0 <= i < |init| ==> init[i] == days[i];
      var rest := PastSeries(pre, init);
      var v := Lookup(pre, days[|days| - 1]);
      if rest.Err? then rest
      else if v.None? then Err(KeyError)
      else Ok(rest.value + [v.value])
  }

  /** The first stored value on day number `n`. */
  function Lookup(pre: seq<YearlyQc.Daily>, n: int): (r: Option<Option<real>>)
    ensures r.Some? <==> exists i :: 0 <= i < |pre| && ValidDate(pre[i].date) && DayNumber(pre[i].date) == n
    decreases |pre|
  {
    if pre == [] then None
    else if ValidDate(pre[0].date) && DayNumber(pre[0].date) == n then Some(pre[0].temp)
    else
      var r := Lookup(pre[1..], n);
      assert forall i :: 1 <= i < |pre| ==> pre[1..][i - 1] == pre[i];
      r
  }

  /** `str(FUD)[5:10]` of a past season's freeze-up date, empty for NaT. */
  function FudText(d: Option<Date>): string {
    if d.Some? && ValidDate(d.value) then MonthDay(d.value) else ""
  }

  // ---------------------------------------------------------------------
  // The job

  /** The files and library results the job reads. */
  datatype Inputs = Inputs(
    thisyear: int,
    thismonth: int,
    /** `T_no_offset` of the preprocessed store. */
    preprocessed: seq<YearlyQc.Daily>,
    /** `T_winter_offset` of the preprocessed store. */
    offsets: seq<Option<real>>,
    /** `T` of the updated store. */
    updated: seq<Sample>,
    /** The freeze-up date of each season from 1992. */
    fudRecord: seq<Option<Date>>,
    frozen: string,
    frozenDate: Option<string>,
    /** The weekly and monthly logs of the forecast year, if present. */
    weeklyLog: Option<string>,
    monthlyLog: Option<string>,
    /** `groupby("Date.dayofyear")` mean, min and max up to June 30 of
        last year. */
    groupMean: seq<Option<real>>,
    groupMin: seq<Option<real>>,
    groupMax: seq<Option<real>>)

  /** One season of the chart: its label, its 365 values and its
      freeze-up `MM-DD`. */
  datatype Season = Season(name: string, series: seq<Option<real>>, fud: string)

  datatype Dashboard = Dashboard(
    dates: seq<string>,
    years: seq<string>,
    clim: seq<Option<real>>,
    climMin: seq<Option<real>>,
    climRange: seq<Option<real>>,
    seasons: seq<Season>,
    climFud: string,
    latestIssued: string,
    latestForecast: string,
    frozen: bool)

  function Label(y: int): string {
    IntToString(y) + "/" + IntToString(y + 1)
  }

  /** The river counts as frozen when the file contains "True". */
  predicate Frozen(content: string) {
    Contains(content, "True")
  }

  /** The markers the download jobs write read as expected. */
  lemma FrozenMarkers()
    ensures Frozen("True") && !Frozen("False")
  {
    assert OccursAt("True", "True", 0);
    forall i | 0 <= i <= 1 ensures !OccursAt("False", "True", i) {
      assert "False"[i] != 'T';
    }
  }

  /** The year the axis is drawn in; only its being common matters. */
  const AxisYear: int := 2001

  /** The axis entry `i` days after July 1 of year `y`. */
  function AxisDay(y: int, i: int): (s: string)
    ensures |s| == 5
  {
    MonthDay(JanFirstPlus(y, JulyIndex - 1 + i))
  }

  /** The `MM-DD` axis from day-of-year 182 of `y` on, 365 days. */
  function DateAxis(y: int): (ds: seq<string>)
    ensures |ds| == SeasonLength
    ensures forall i :: 0 <= i < SeasonLength ==> ds[i] == AxisDay(y, i)
  {
    seq(SeasonLength, i => AxisDay(y, i))
  }

  lemma JulyFirst(y: int)
    requires !IsLeap(y)
    ensures JanFirstPlus(y, JulyIndex - 1) == Date(y, 7, 1)
  {
    FromDayOfYearOfDate(Date(y, 7, 1));
  }

  lemma JuneLast(y: int)
    requires !IsLeap(y) && !IsLeap(y + 1)
    ensures JanFirstPlus(y, JulyIndex - 1 + SeasonLength - 1) == Date(y + 1, 6, 30)
  {
    FromDayOfYearOfDate(Date(y + 1, 6, 30));
    assert JanFirstPlus(y, JulyIndex - 1 + SeasonLength - 1) == JanFirstPlus(y + 1, 180);
  }

  /** Drawn in a common year followed by a common year, as 2001 is, the
      axis starts on July 1 and ends on June 30. */
  lemma DateAxisEnds(y: int)
    requires !IsLeap(y) && !IsLeap(y + 1)
    ensures DateAxis(y)[0] == "07-01" && DateAxis(y)[SeasonLength - 1] == "06-30"
  {
    JulyFirst(y);
    JuneLast(y);
  }

  /** The season labels from 1992 up to last year, as the source writes
      them (the season that starts this year gets no label). */
  function Years(ymin: int, thisyear: int): (ls: seq<string>)
    ensures |ls| == if thisyear > ymin then thisyear - ymin else 0
    ensures forall i :: 0 <= i < |ls| ==> ls[i] == Label(ymin + i)
  {
    var n := if thisyear > ymin then thisyear - ymin else 0;
    seq(n, i requires 0 <= i < n => Label(ymin + i))
  }

  /** In July to December the season the loop adds last has no label. */
  lemma LastSeasonUnlabelled(ymin: int, thisyear: int, thismonth: int)
    requires 7 <= thismonth <= 12 && thisyear >= ymin
    ensures |Years(ymin, thisyear)| == LoopEnd(thisyear, thismonth) - ymin - 1
  {
  }

  /** The day-of-year of a freeze-up `MM-DD` in 2001, days before July
      counted in the next year. */
  function ShiftedDay(mmdd: string): (r: Result<int>)
    ensures r.Ok? ==> JulyIndex <= r.value <= SeasonLength + JulyIndex - 1
  {
    match ParseMonthDay(mmdd)
    case None => Err("time data does not match format")
    case Some((m, d)) =>
      if ValidDate(Date(2001, m, d)) then
        var n := DayOfYear(Date(2001, m, d));
        Ok(if n < JulyIndex then n + SeasonLength else n)
      else Err("day is out of range for month")
  }

  /** A date written as `MM-DD` reads back as its shifted day-of-year. */
  lemma ShiftedDayOfDate(d: Date)
    requires ValidDate(d) && !(d.month == 2 && d.day == 29)
    ensures ShiftedDay(MonthDay(d)).Ok?
    ensures var n := DayOfYear(Date(2001, d.month, d.day));
      ShiftedDay(MonthDay(d)).value == if n < JulyIndex then n + SeasonLength else n
  {
    ParseMonthDayOfDate(d);
  }

  function ShiftedDays(fuds: seq<string>): (r: Result<seq<int>>)
    ensures r.Ok? <==> forall i :: 0 <= i < |fuds| ==> ShiftedDay(fuds[i]).Ok?
    ensures r.Ok? ==> |r.value| == |fuds| && forall i :: 0 <= i < |fuds| ==> ShiftedDay(fuds[i]) == Ok(r.value[i])
  {
    var rs := seq(|fuds|, i requires 0 <= i < |fuds| => ShiftedDay(fuds[i]));
    assert forall i :: 0 <= i < |fuds| ==> rs[i] == ShiftedDay(fuds[i]);
    AllOk(rs)
  }

  function Reals(xs: seq<int>): (r: seq<real>)
    ensures |r| == |xs| && forall i :: 0 <= i < |xs| ==> r[i] == xs[i] as real
  {
    seq(|xs|, i requires 0 <= i < |xs| => xs[i] as real)
  }

  /** The climatological freeze-up: the integer mean of the shifted days,
      back to `MM-DD` through `strptime("2001 %j")`. */
  function ClimFud(fuds: seq<string>): (r: Result<string>)
    ensures r.Ok? ==> |r.value| == 5
  {
    var ds := ShiftedDays(fuds);
    if ds.Err? then Err(ds.msg)
    else if ds.value == [] then Err("cannot convert float NaN to integer")
    else
      var d := DayOfYearDate(2001, Trunc(Mean(Reals(ds.value))));
      if d.Err? then Err(d.msg) else Ok(MonthDay(d.value))
  }

  /** The climatological date exists exactly when every season's date
      reads and the integer mean of the shifted days is at most 366. */
  lemma ClimFudOk(fuds: seq<string>)
    ensures ClimFud(fuds).Ok? <==>
      ShiftedDays(fuds).Ok? && fuds != [] && Trunc(Mean(Reals(ShiftedDays(fuds).value))) <= 366
  {
    var ds := ShiftedDays(fuds);
    if ds.Ok? && ds.value != [] {
      forall i | 0 <= i < |ds.value| ensures JulyIndex as real <= Reals(ds.value)[i] <= 1000.0 {
        assert ShiftedDay(fuds[i]) == Ok(ds.value[i]);
      }
      MeanBounds(Reals(ds.value), JulyIndex as real, 1000.0);
    }
  }

  /** The current season's values: the updated store on the window minus
      the mean winter offset, negatives clamped, padded to 365 entries. */
  function CurrentSeries(inp: Inputs, y: int): (r: seq<Option<real>>)
    ensures |InWindow(inp.updated, y)| <= SeasonLength ==> |r| == SeasonLength
    ensures forall i :: 0 <= i < |r| ==> r[i].None? || r[i].value >= 0.0
  {
    var s := Clamped(MinusOffset(InWindow(inp.updated, y), NanMean(inp.offsets)));
    ClampedNonNegative(MinusOffset(InWindow(inp.updated, y), NanMean(inp.offsets)));
    Padded(s, SeasonLength)
  }

  /** The same series as the script computes it, on an array clamped in
      place. */
  method ComputeCurrentSeries(inp: Inputs, y: int) returns (r: seq<Option<real>>)
    ensures r == CurrentSeries(inp, y)
  {
    var s := MinusOffset(InWindow(inp.updated, y), NanMean(inp.offsets));
    var a := new Option<real>[|s|](i requires 0 <= i < |s| => s[i]);
    assert a[..] == s;
    ClampNegatives(a);
    r := Padded(a[..], SeasonLength);
  }

  /** The series of season `y`: the current one from the updated store,
      the others from the preprocessed store on the window's days. */
  function SeasonSeries(inp: Inputs, y: int, current: bool): (r: Result<seq<Option<real>>>)
    ensures current ==> r.Ok? && (|InWindow(inp.updated, y)| <= SeasonLength ==> |r.value| == SeasonLength)
    ensures current ==> forall i :: 0 <= i < |r.value| ==> r.value[i].None? || r.value[i].value >= 0.0
    ensures !current ==> (r.Ok? <==> forall i :: 0 <= i < SeasonLength ==> Lookup(inp.preprocessed, WindowDays(y)[i]).Some?)
    ensures !current && r.Ok? ==>
      |r.value| == SeasonLength
      && forall i :: 0 <= i < SeasonLength ==> Lookup(inp.preprocessed, WindowDays(y)[i]) == Some(r.value[i])
  {
    if current then Ok(CurrentSeries(inp, y)) else PastSeries(inp.preprocessed, WindowDays(y))
  }

  /** The freeze-up `MM-DD` of season `y`: the recorded date when frozen
      or the latest forecast for the current season, the record at index
      `y - 1992` otherwise. */
  function SeasonFud(inp: Inputs, latest: string, ymin: int, y: int, current: bool): (r: Result<string>)
    ensures r.Ok? <==> if current then !Frozen(inp.frozen) || inp.frozenDate.Some? else 0 <= y - ymin < |inp.fudRecord|
    ensures r.Ok? && current ==> |r.value| <= 5
    ensures r.Ok? && !current && inp.fudRecord[y - ymin].None? ==> r.value == ""
  {
    if current then
      if Frozen(inp.frozen) then
        if inp.frozenDate.Some? then Ok(Slice(inp.frozenDate.value, 5, 10)) else Err(NoFile)
      else Ok(Slice(latest, 5, 10))
    else if 0 <= y - ymin < |inp.fudRecord| then Ok(FudText(inp.fudRecord[y - ymin]))
    else Err("index out of bounds")
  }

  function SeasonOf(rd: Reading, inp: Inputs, latest: string, ymin: int, y: int): (r: Result<Season>)
    ensures r.Ok? ==> r.value.name == Label(y)
    ensures Current(rd, y, inp.thisyear, inp.thismonth) ==> (r.Ok? <==> !Frozen(inp.frozen) || inp.frozenDate.Some?)
  {
    var current := Current(rd, y, inp.thisyear, inp.thismonth);
    var s := SeasonSeries(inp, y, current);
    var f := SeasonFud(inp, latest, ymin, y, current);
    if s.Err? then Err(s.msg)
    else if f.Err? then Err(f.msg)
    else Ok(Season(Label(y), s.value, f.value))
  }

  /** A season that builds has its label and 365 values; a past one carries
      its recorded freeze-up date and the current one the frozen date or
      the forecast's. */
  lemma SeasonOfShape(rd: Reading, inp: Inputs, latest: string, ymin: int, y: int)
    requires SeasonOf(rd, inp, latest, ymin, y).Ok? && |InWindow(inp.updated, y)| <= SeasonLength
    ensures var s := SeasonOf(rd, inp, latest, ymin, y).value;
      s.name == Label(y)
      && |s.series| == SeasonLength
      && (!Current(rd, y, inp.thisyear, inp.thismonth) ==>
        0 <= y - ymin < |inp.fudRecord| && s.fud == FudText(inp.fudRecord[y - ymin])
        && Ok(s.series) == PastSeries(inp.preprocessed, WindowDays(y)))
      && (Current(rd, y, inp.thisyear, inp.thismonth) ==>
        s.series == CurrentSeries(inp, y)
        && s.fud == if Frozen(inp.frozen) then Slice(inp.frozenDate.value, 5, 10) else Slice(latest, 5, 10))
  {
  }

  /** The specification of the season loop: one entry per season from
      1992 up to the loop end, or the first failure. */
  function Seasons(rd: Reading, inp: Inputs, latest: string, ymin: int, n: nat): (r: Result<seq<Season>>)
    ensures r.Ok? <==> forall y :: ymin <= y < ymin + n ==> SeasonOf(rd, inp, latest, ymin, y).Ok?
    ensures r.Ok? ==>
      |r.value| == n
      && forall i :: 0 <= i < n ==> SeasonOf(rd, inp, latest, ymin, ymin + i) == Ok(r.value[i])
  {
    var rs := SeasonSpecs(rd, inp, latest, ymin, n);
    assert forall y :: ymin <= y < ymin + n ==> rs[y - ymin] == SeasonOf(rd, inp, latest, ymin, y);
    AllOk(rs)
  }

  function SeasonSpecs(rd: Reading, inp: Inputs, latest: string, ymin: int, n: nat): (rs: seq<Result<Season>>)
    ensures |rs| == n && forall i :: 0 <= i < n ==> rs[i] == SeasonOf(rd, inp, latest, ymin, ymin + i)
  {
    seq(n, i requires 0 <= i < n => SeasonOf(rd, inp, latest, ymin, ymin + i))
  }

  /** The loop of the script, season by season, stopping at the first
      season that raises. */
  method BuildSeasons(rd: Reading, inp: Inputs, latest: string, ymin: int, n: nat) returns (r: Result<seq<Season>>)
    ensures r == Seasons(rd, inp, latest, ymin, n)
  {
    ghost var specs := SeasonSpecs(rd, inp, latest, ymin, n);
    r := SeasonLoop(rd, inp, latest, ymin, n, specs);
  }

  /** The loop itself, against the list `specs` of per-season results. */
  method SeasonLoop(rd: Reading, inp: Inputs, latest: string, ymin: int, n: nat, ghost specs: seq<Result<Season>>) returns (r: Result<seq<Season>>)
    requires |specs| == n
    requires forall y {:trigger SeasonOf(rd, inp, latest, ymin, y)} :: ymin <= y < ymin + n ==> SeasonOf(rd, inp, latest, ymin, y) == specs[y - ymin]
    ensures r == AllOk(specs)
  {
    var acc: seq<Season> := [];
    var i := 0;
    while i < n
      invariant 0 <= i <= n && |acc| == i
      invariant forall k :: 0 <= k < i ==> specs[k] == Ok(acc[k])
    {
      var s := ComputeSeason(rd, inp, latest, ymin, ymin + i);
      assert s == specs[i];
      if s.Err? {
        AllOkFirstErr(specs, i);
        return Err(s.msg);
      }
      OkPrefixGrows(specs, acc, s.value);
      acc := acc + [s.value];
      i := i + 1;
    }
    AllOkOfValues(specs, acc);
    r := Ok(acc);
  }

  /** One pass of the loop body for season `y`. */
  method ComputeSeason(rd: Reading, inp: Inputs, latest: string, ymin: int, y: int) returns (s: Result<Season>)
    ensures s == SeasonOf(rd, inp, latest, ymin, y)
  {
    var current := Current(rd, y, inp.thisyear, inp.thismonth);
    var series: Result<seq<Option<real>>>;
    if current {
      var c := ComputeCurrentSeries(inp, y);
      series := Ok(c);
    } else {
      series := PastSeries(inp.preprocessed, WindowDays(y));
    }
    var fud := SeasonFud(inp, latest, ymin, y, current);
    if series.Err? {
      return Err(series.msg);
    }
    if fud.Err? {
      return Err(fud.msg);
    }
    s := Ok(Season(Label(y), series.value, fud.value));
  }

  /** Every season has 365 values when no current window holds more than
      365 samples, and carries its own label. */
  lemma SeasonsShape(rd: Reading, inp: Inputs, latest: string, ymin: int, n: nat)
    requires Seasons(rd, inp, latest, ymin, n).Ok?
    requires forall y :: ymin <= y < ymin + n ==> |InWindow(inp.updated, y)| <= SeasonLength
    ensures forall i :: 0 <= i < n ==>
      Seasons(rd, inp, latest, ymin, n).value[i].name == Label(ymin + i)
      && |Seasons(rd, inp, latest, ymin, n).value[i].series| == SeasonLength
  {
    forall i | 0 <= i < n
      ensures Seasons(rd, inp, latest, ymin, n).value[i].name == Label(ymin + i)
      ensures |Seasons(rd, inp, latest, ymin, n).value[i].series| == SeasonLength
    {
      SeasonOfShape(rd, inp, latest, ymin, ymin + i);
    }
  }

  function Fuds(ss: seq<Season>): (r: seq<string>)
    ensures |r| == |ss| && forall i :: 0 <= i < |ss| ==> r[i] == ss[i].fud
  {
    seq(|ss|, i requires 0 <= i < |ss| => ss[i].fud)
  }

  /** The latest forecast: its issue date and its date as `YYYY-MM-DD`,
      from the logs of the forecast year. */
  function LatestForecast(rd: Reading, inp: Inputs): (r: Result<(string, string)>)
    ensures r.Ok? ==>
      Logs(inp).Ok? && Logs(inp).value.0 != []
      && r.value.0 == Slice(Logs(inp).value.0[|Logs(inp).value.0| - 1].issued, 0, 10)
  {
    var logs := Logs(inp);
    if logs.Err? then Err(logs.msg)
    else LatestOf(rd, ForecastYear(inp.thisyear, inp.thismonth), logs.value.0, logs.value.1)
  }

  /** The rows of the weekly and the monthly log. */
  function Logs(inp: Inputs): (r: Result<(seq<WeeklyForecast.LogRow>, seq<WeeklyForecast.LogRow>)>)
    ensures r.Ok? <==>
      inp.weeklyLog.Some? && inp.monthlyLog.Some?
      && WeeklyForecast.ParseLog(inp.weeklyLog.value).Some? && WeeklyForecast.ParseLog(inp.monthlyLog.value).Some?
    ensures r.Ok? ==> Some(r.value.0) == WeeklyForecast.ParseLog(inp.weeklyLog.value)
  {
    if inp.weeklyLog.None? || inp.monthlyLog.None? then Err(NoFile)
    else
      var weekly := WeeklyForecast.ParseLog(inp.weeklyLog.value);
      var monthly := WeeklyForecast.ParseLog(inp.monthlyLog.value);
      if weekly.None? || monthly.None? then Err("Error tokenizing data")
      else Ok((weekly.value, monthly.value))
  }

  /** The latest forecast from the rows of the two logs. */
  function LatestOf(rd: Reading, tyear: int, weekly: seq<WeeklyForecast.LogRow>, monthly: seq<WeeklyForecast.LogRow>): (r: Result<(string, string)>)
    ensures r.Ok? <==> Latest(weekly, monthly).Ok? && FudDate(rd, tyear, Latest(weekly, monthly).value.1).Ok?
    ensures r.Ok? ==> r.value.1 == FormatDate(FudDate(rd, tyear, Latest(weekly, monthly).value.1).value)
    ensures r.Ok? ==> weekly != [] && r.value.0 == Slice(weekly[|weekly| - 1].issued, 0, 10)
  {
    var latest := Latest(weekly, monthly);
    if latest.Err? then Err(latest.msg)
    else
      var date := FudDate(rd, tyear, latest.value.1);
      if date.Err? then Err(date.msg)
      else Ok((Slice(latest.value.0, 0, 10), FormatDate(date.value)))
  }


  /** After a forecast run appended to the weekly log, the latest forecast
      is the run's mean row when it is the only mean row of its date. */
  lemma LatestOfRun(before: seq<WeeklyForecast.LogRow>, run: seq<WeeklyForecast.LogRow>, monthly: seq<WeeklyForecast.LogRow>, issued: string)
    requires ParseIsoDate(issued).Some?
    requires run != [] && forall i :: 0 <= i < |run| ==> run[i].issued == issued && run[i].number == i
    requires MeanFuds(before, issued) == []
    ensures Latest(before + run, monthly) == Ok((issued, run[0].fud as real))
  {
    LatestIsLastRun(before, run, issued);
    var x := run[0].fud as real;
    assert [] + [x] == [x];
    assert Mean([x]) == x by {
      assert Sum([x]) == x + Sum([]);
    }
    var d := ParseIsoDate(issued).value;
    assert !Before(d, d);
  }

  /** The latest forecast after such a run: the run's issue date and the
      date of its mean FUD. */
  lemma LatestForecastOfRun(rd: Reading, inp: Inputs, before: seq<WeeklyForecast.LogRow>, run: seq<WeeklyForecast.LogRow>, issued: string)
    requires ParseIsoDate(issued).Some?
    requires run != [] && forall i :: 0 <= i < |run| ==> run[i].issued == issued && run[i].number == i
    requires MeanFuds(before, issued) == []
    requires Logs(inp).Ok? && Logs(inp).value.0 == before + run
    ensures var date := FudDate(rd, ForecastYear(inp.thisyear, inp.thismonth), run[0].fud as real);
      LatestForecast(rd, inp) == if date.Ok? then Ok((issued, FormatDate(date.value))) else Err(date.msg)
  {
    var monthly := Logs(inp).value.1;
    LatestOfRun(before, run, monthly, issued);
    assert Slice(issued, 0, 10) == issued;
    assert LatestForecast(rd, inp) == LatestOf(rd, ForecastYear(inp.thisyear, inp.thismonth), before + run, monthly);
  }

  /** The job: the frozen date, the latest forecast, the seasons, then the
      climatological date; nothing is written unless all succeed. */
  function Build(rd: Reading, inp: Inputs): (r: Result<Dashboard>)
    ensures r.Ok? ==> (Frozen(inp.frozen) ==> inp.frozenDate.Some?) && LatestForecast(rd, inp).Ok?
    ensures r.Ok? ==> r.value.frozen == Frozen(inp.frozen)
  {
    if Frozen(inp.frozen) && inp.frozenDate.None? then Err(NoFile)
    else
      var latest := LatestForecast(rd, inp);
      if latest.Err? then Err(latest.msg)
      else Assemble(rd, inp, FirstSeason, latest.value.0, latest.value.1)
  }

  /** What the job writes once the latest forecast is known. */
  function Assemble(rd: Reading, inp: Inputs, ymin: int, issued: string, latest: string): (r: Result<Dashboard>)
    ensures var n := LoopEnd(inp.thisyear, inp.thismonth) - ymin;
      r.Ok? ==> Seasons(rd, inp, latest, ymin, if n > 0 then n else 0) == Ok(r.value.seasons)
    ensures r.Ok? ==> ClimFud(Fuds(r.value.seasons)) == Ok(r.value.climFud)
    ensures r.Ok? ==> r.value.latestIssued == issued && r.value.latestForecast == latest
  {
    var n := LoopEnd(inp.thisyear, inp.thismonth) - ymin;
    AssembleOf(inp, ymin, Seasons(rd, inp, latest, ymin, if n > 0 then n else 0), issued, latest)
  }

  /** The steps after the season loop: the climatological date, then the
      chart. */
  function AssembleOf(inp: Inputs, ymin: int, seasons: Result<seq<Season>>, issued: string, latest: string): (r: Result<Dashboard>)
    ensures r.Ok? ==> seasons == Ok(r.value.seasons) && ClimFud(Fuds(r.value.seasons)) == Ok(r.value.climFud)
    ensures r.Ok? ==> r.value.latestIssued == issued && r.value.latestForecast == latest
  {
    if seasons.Err? then Err(seasons.msg)
    else
      var clim := ClimFud(Fuds(seasons.value));
      if clim.Err? then Err(clim.msg)
      else if |inp.groupMax| != |inp.groupMin| then Err("operands could not be broadcast together")
      else Ok(Chart(inp, ymin, seasons.value, clim.value, issued, latest))
  }

  /** The JSON contents: the axis, the labels, the rotated climatology,
      the seasons and the dates. */
  function Chart(inp: Inputs, ymin: int, seasons: seq<Season>, climFud: string, issued: string, latest: string): (d: Dashboard)
    requires |inp.groupMax| == |inp.groupMin|
    ensures d.seasons == seasons && d.climFud == climFud
    ensures d.latestIssued == issued && d.latestForecast == latest && d.frozen == Frozen(inp.frozen)
    ensures |d.dates| == SeasonLength
    ensures |inp.groupMean| == 366 ==> |d.clim| == SeasonLength
    ensures |d.climRange| == |d.climMin|
  {
    Dashboard(DateAxis(AxisYear), Years(ymin, inp.thisyear),
      Rotated(DropLast(inp.groupMean)), Rotated(DropLast(inp.groupMin)),
      Range(Rotated(DropLast(inp.groupMax)), Rotated(DropLast(inp.groupMin))),
      seasons, climFud, issued, latest, Frozen(inp.frozen))
  }


  /** On success there is one season per year from 1992 to the loop end,
      the last is current under either reading, and its freeze-up date is
      the recorded one when frozen and the latest forecast's `MM-DD`
      otherwise. */
  lemma AssembleCurrentSeason(rd: Reading, inp: Inputs, ymin: int, issued: string, latest: string)
    requires ymin < LoopEnd(inp.thisyear, inp.thismonth)
    requires Frozen(inp.frozen) ==> inp.frozenDate.Some?
    requires Assemble(rd, inp, ymin, issued, latest).Ok?
    ensures var d := Assemble(rd, inp, ymin, issued, latest).value;
      |d.seasons| == LoopEnd(inp.thisyear, inp.thismonth) - ymin
      && d.seasons[|d.seasons| - 1].fud ==
        (if Frozen(inp.frozen) then Slice(inp.frozenDate.value, 5, 10) else Slice(latest, 5, 10))
  {
    var n := LoopEnd(inp.thisyear, inp.thismonth) - ymin;
    var ss := Seasons(rd, inp, latest, ymin, n).value;
    assert SeasonOf(rd, inp, latest, ymin, ymin + n - 1) == Ok(ss[n - 1]);
    assert Current(rd, ymin + n - 1, inp.thisyear, inp.thismonth);
  }

  /** The dashboard's latest forecast is the one the forecast chooses, and
      its climatology has 365 entries when the groups are the 366 days of
      the year. */
  lemma BuildLatest(rd: Reading, inp: Inputs)
    requires Build(rd, inp).Ok?
    ensures LatestForecast(rd, inp).Ok?
    ensures Build(rd, inp).value.latestIssued == LatestForecast(rd, inp).value.0
    ensures Build(rd, inp).value.latestForecast == LatestForecast(rd, inp).value.1
    ensures |inp.groupMean| == 366 ==> |Build(rd, inp).value.clim| == SeasonLength
    ensures |Build(rd, inp).value.dates| == SeasonLength
  {
    var latest := LatestForecast(rd, inp).value;
    var n := LoopEnd(inp.thisyear, inp.thismonth) - FirstSeason;
    var ss := Seasons(rd, inp, latest.1, FirstSeason, if n > 0 then n else 0).value;
    var c := ClimFud(Fuds(ss)).value;
    assert Build(rd, inp) == Ok(Chart(inp, FirstSeason, ss, c, latest.0, latest.1));
  }

  /** From January to June the two readings pick the same current season,
      so they build the same seasons. */
  lemma SeasonsAgreeBeforeJuly(inp: Inputs, latest: string, ymin: int, n: nat)
    requires 1 <= inp.thismonth <= 6
    ensures Seasons(AsWritten, inp, latest, ymin, n) == Seasons(Intended, inp, latest, ymin, n)
  {
    var a := SeasonSpecs(AsWritten, inp, latest, ymin, n);
    var b := SeasonSpecs(Intended, inp, latest, ymin, n);
    forall i | 0 <= i < n ensures a[i] == b[i] {
      CurrentSeasonUnique(ymin + i, inp.thisyear, inp.thismonth);
    }
    assert a == b;
  }

  /** From January to June, and with a latest FUD of at most 365, the
      script builds what the corrected job builds. */
  lemma BuildAgreesBeforeJuly(inp: Inputs)
    requires 1 <= inp.thismonth <= 6
    requires Logs(inp).Ok? && Latest(Logs(inp).value.0, Logs(inp).value.1).Ok? ==>
      Trunc(Latest(Logs(inp).value.0, Logs(inp).value.1).value.1) <= 365
    ensures Build(AsWritten, inp) == Build(Intended, inp)
  {
    LatestForecastAgrees(inp);
    if LatestForecast(Intended, inp).Ok? {
      var l := LatestForecast(Intended, inp).value;
      AssembleAgreesBeforeJuly(inp, FirstSeason, l.0, l.1);
    }
  }

  /** With a latest FUD of at most 365 both readings show the same latest
      forecast. */
  lemma LatestForecastAgrees(inp: Inputs)
    requires Logs(inp).Ok? && Latest(Logs(inp).value.0, Logs(inp).value.1).Ok? ==>
      Trunc(Latest(Logs(inp).value.0, Logs(inp).value.1).value.1) <= 365
    ensures LatestForecast(AsWritten, inp) == LatestForecast(Intended, inp)
  {
    if Logs(inp).Ok? && Latest(Logs(inp).value.0, Logs(inp).value.1).Ok? {
      LatestDateAgrees(ForecastYear(inp.thisyear, inp.thismonth), Latest(Logs(inp).value.0, Logs(inp).value.1).value.1);
    }
  }

  lemma AssembleAgreesBeforeJuly(inp: Inputs, ymin: int, issued: string, latest: string)
    requires 1 <= inp.thismonth <= 6
    ensures Assemble(AsWritten, inp, ymin, issued, latest) == Assemble(Intended, inp, ymin, issued, latest)
  {
    var n := LoopEnd(inp.thisyear, inp.thismonth) - ymin;
    var m: nat := if n > 0 then n else 0;
    SeasonsAgreeBeforeJuly(inp, latest, ymin, m);
    var ss := Seasons(Intended, inp, latest, ymin, m);
    assert Assemble(AsWritten, inp, ymin, issued, latest) == AssembleOf(inp, ymin, ss, issued, latest);
    assert Assemble(Intended, inp, ymin, issued, latest) == AssembleOf(inp, ymin, ss, issued, latest);
  }

  /** From July the script's test holds for every season: each one shows
      the updated store's window as its series and the frozen date or the
      latest forecast as its freeze-up date, past seasons included. */
  lemma {:induction false} EverySeasonAsCurrentFromJuly(inp: Inputs, latest: string, ymin: int, n: nat, i: int)
    requires 7 <= inp.thismonth <= 12
    requires Seasons(AsWritten, inp, latest, ymin, n).Ok? && 0 <= i < n
    ensures var s := Seasons(AsWritten, inp, latest, ymin, n).value[i];
      s.series == CurrentSeries(inp, ymin + i)
      && s.fud == if Frozen(inp.frozen) then Slice(inp.frozenDate.value, 5, 10) else Slice(latest, 5, 10)
  {
    var s := Seasons(AsWritten, inp, latest, ymin, n).value[i];
    assert SeasonOf(AsWritten, inp, latest, ymin, ymin + i) == Ok(s);
    EverySeasonCurrentFromJuly(ymin + i, inp.thisyear, inp.thismonth);
  }

  /** Hence from July every season's freeze-up date is the same. */
  lemma SameFudFromJuly(inp: Inputs, latest: string, ymin: int, n: nat, i: int, j: int)
    requires 7 <= inp.thismonth <= 12
    requires Seasons(AsWritten, inp, latest, ymin, n).Ok? && 0 <= i < n && 0 <= j < n
    ensures Seasons(AsWritten, inp, latest, ymin, n).value[i].fud == Seasons(AsWritten, inp, latest, ymin, n).value[j].fud
  {
    EverySeasonAsCurrentFromJuly(inp, latest, ymin, n, i);
    EverySeasonAsCurrentFromJuly(inp, latest, ymin, n, j);
  }

  /** A latest FUD from day 367 on stops the script, while the corrected
      job shows it as a day of the next year. */
  lemma BuildStopsPastDay366(inp: Inputs)
    requires Logs(inp).Ok? && Latest(Logs(inp).value.0, Logs(inp).value.1).Ok?
    requires 367 <= Trunc(Latest(Logs(inp).value.0, Logs(inp).value.1).value.1) <= 730
    ensures Build(AsWritten, inp).Err?
    ensures 1000 <= ForecastYear(inp.thisyear, inp.thismonth) <= 9998 ==> LatestForecast(Intended, inp).Ok?
  {
    var fud := Latest(Logs(inp).value.0, Logs(inp).value.1).value.1;
    assert FudDate(AsWritten, ForecastYear(inp.thisyear, inp.thismonth), fud).Err?;
  }

  /** The shown forecast day `MM-DD` is the one of the forecast date. */
  lemma LatestMonthDay(d: Date)
    requires ValidDate(d) && 0 <= d.year <= 9999
    ensures Slice(FormatDate(d), 5, 10) == MonthDay(d)
  {
    FormatDateSlice(d);
  }
}
