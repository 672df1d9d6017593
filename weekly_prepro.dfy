/** The weekly predictor job (`prepro/weekly_preprocess.py` and its older
    copy `preprocess/weekly_preprocess.py`): the monthly job's choice of
    sources, except that a SEAS5.1 forecast is first updated with the days
    of a partial ERA5 month, and that both keys of a predictor are always
    written, to `input_forecast_weekly.nc`, with the marker "True" in
    `preprow` once every predictor is in.

    The two copies differ in two places, given here as a `Config`: the
    newer one keeps only complete days of the partial ERA5 month and
    reshapes a single ERA5 day into a column (`[:, None]`). Both continue
    an accumulated variable with numpy's broadcast of two 1-D arrays
    (`Splice.SplicePlanAsWritten`); `Intended` is the same job with each
    member's own continuation (`Splice.SplicePlan`). */
module WeeklyPrepro {
  import opened Wrappers
  import Calendar
  import opened Predictors
  import opened Splice
  import MonthlyPrepro

  /** What differs between the two copies of the script, and whether an
      accumulated variable is continued per member (the intent) or by the
      broadcast the scripts execute. */
  datatype Config = Config(fullDaysOnly: bool, asColumn: bool, perMemberSums: bool)

  /** `prepro/weekly_preprocess.py`, as written. */
  const Prepro: Config := Config(true, true, false)
  /** `preprocess/weekly_preprocess.py`, as written. */
  const Preprocess: Config := Config(false, false, false)

  /** A copy of the job with the per-member continuation of sums. */
  function Intended(cfg: Config): (c: Config)
    ensures c.perMemberSums && c.fullDaysOnly == cfg.fullDaysOnly && c.asColumn == cfg.asColumn
  {
    cfg.(perMemberSums := true)
  }

  /** `seas51.time[0]` or `era5p.time[0]` on an empty axis. */
  const IndexError: string := "index 0 is out of bounds"

  /** The SEAS5.1 file the weekly job falls back on. */
  function WeeklySeasFile(season: int, month: int, day: int, v: Variable): string
    requires 1 <= month <= 12 && 1 <= v.month <= 12
  {
    Seas51Name(season, WeeklyIssue(month, day, v), v)
  }

  // ---------------------------------------------------------------------
  // The update with a partial ERA5 month

  /** The partial ERA5 month as daily values from the predictor month's
      first day on. */
  function PartialDays(cfg: Config, e: Era5File, season: int, v: Variable): (days: seq<DailyValue>)
    requires ValidHours(e.hours)
    ensures ValidDays(days)
  {
    var days := DailySeries(e, v, Calendar.Date(season, v.month, 1), cfg.fullDaysOnly);
    assert ValidDays(days) by {
      forall k | 0 <= k < |days|
        ensures Calendar.ValidDate(days[k].day)
      {
        var i :| 0 <= i < |e.hours| && e.hours[i].day == days[k].day;
      }
    }
    days
  }

  /** The forecast (in Celsius) with the partial ERA5 month spliced in. */
  function Updated(cfg: Config, f: Forecast, e: Era5File, season: int, v: Variable): (r: Result<Forecast>)
    requires WellShaped(f) && ValidHours(e.hours)
    ensures r.Ok? ==>
      WellShaped(r.value) && r.value.units == f.units && r.value.steps == f.steps && |r.value.members| == |f.members|
  {
    SpliceDays(f, PartialDays(cfg, e, season, v), v.agg, cfg.asColumn, cfg.perMemberSums)
  }

  /** The forecast with the given ERA5 days spliced in, by the scripts'
      plan or, with `perMember`, by the intended one; an empty forecast
      or an empty daily series has no first time, and a fill whose shape
      does not broadcast stops the job. */
  function SpliceDays(f: Forecast, days: seq<DailyValue>, agg: Aggregation, asColumn: bool, perMember: bool): (r: Result<Forecast>)
    requires WellShaped(f) && ValidDays(days)
    ensures r.Ok? ==>
      WellShaped(r.value) && r.value.units == f.units && r.value.steps == f.steps && |r.value.members| == |f.members|
    ensures |f.steps| == 0 || |days| == 0 ==> r == Err(IndexError)
    ensures |f.steps| > 0 && |days| > 0 ==>
      var p := PlanOf(f, days, agg, asColumn, perMember);
      (r.Ok? <==> p.Ok?) && (r.Ok? ==> r.value.members == Spliced(f.members, |f.steps|, p.value))
  {
    if |f.steps| == 0 || |days| == 0 then Err(IndexError)
    else
      var p := PlanOf(f, days, agg, asColumn, perMember);
      if p.Err? then Err(p.msg)
      else Ok(Forecast(f.units, f.steps, Spliced(f.members, |f.steps|, p.value)))
  }

  /** The plan the job follows. */
  function PlanOf(f: Forecast, days: seq<DailyValue>, agg: Aggregation, asColumn: bool, perMember: bool): (r: Result<Plan>)
    requires WellShaped(f) && ValidDays(days) && |f.steps| > 0 && |days| > 0
    ensures r.Ok? ==> PlanFits(r.value, |f.members|, |f.steps|)
    ensures perMember ==> r == SplicePlan(f.steps, days, agg, f.members, asColumn)
    ensures !perMember ==> r == SplicePlanAsWritten(f.steps, days, agg, f.members, asColumn)
  {
    if perMember then SplicePlan(f.steps, days, agg, f.members, asColumn)
    else SplicePlanAsWritten(f.steps, days, agg, f.members, asColumn)
  }

  /** The scripts' splice is the intended one except for an accumulated
      variable and a forecast issued the month before the ERA5 days. */
  lemma AsWrittenDiffersOnlyForEarlierSums(f: Forecast, days: seq<DailyValue>, agg: Aggregation, asColumn: bool)
    requires WellShaped(f) && ValidDays(days) && |f.steps| > 0 && |days| > 0
    requires agg == Mean || SameMonthIssue(f.steps, days)
    ensures SpliceDays(f, days, agg, asColumn, false) == SpliceDays(f, days, agg, asColumn, true)
  {
    assert PlanOf(f, days, agg, asColumn, false) == PlanOf(f, days, agg, asColumn, true);
  }

  /** ERA5 days that sit on the steps from `j0` of a forecast issued the
      month before them, with several members and several days and as many
      of neither. */
  predicate Misfits(f: Forecast, days: seq<DailyValue>, j0: int)
    requires WellShaped(f) && ValidDays(days)
  {
    |f.steps| > 0 && |days| >= 2
    && Ascending(f.steps) && Aligned(f.steps, days, j0, 0) && !SameMonthIssue(f.steps, days)
    && |f.members| >= 2 && |f.members| != |days|
  }

  /** For such a variable, with several members and several ERA5 days and
      as many of neither, the scripts' splice stops where the intended one
      succeeds. */
  lemma EarlierSumStops(f: Forecast, days: seq<DailyValue>, asColumn: bool, j0: int)
    requires WellShaped(f) && ValidDays(days) && Misfits(f, days, j0)
    ensures SpliceDays(f, days, Sum, asColumn, false).Err?
    ensures SpliceDays(f, days, Sum, asColumn, true).Ok?
  {
    BroadcastSumStops(f.steps, days, f.members, asColumn, j0);
  }

  /** The forecast of a predictor the weekly job reads, in Celsius. */
  function SeasForecast(season: int, month: int, day: int, st: Store, v: Variable): (f: Forecast)
    requires 1 <= month <= 12 && v in Variables && ValidStore(st)
    ensures WellShaped(f)
  {
    Celsius(st.seas(WeeklySeasFile(season, month, day, v)), v)
  }

  /** What one predictor contributes to the weekly dataset: the full ERA5
      month under both keys, else the SEAS5.1 forecast (updated with the
      partial ERA5 month when that file exists), else abort. */
  function WeeklyEntry(cfg: Config, season: int, month: int, day: int, st: Store, v: Variable): (r: Result<Vars>)
    requires 1 <= month <= 12 && v in Variables && ValidStore(st)
    ensures r.Ok? ==> r.value.Keys == KeysOf(v)
  {
    var source := WeeklySource(season, month, day, st, v);
    if source.Err? then Err(source.msg)
    else if source.value == Era5Full then
      var x := Era5Value(st.era5(Era5Name(season, v)), v);
      if x.Err? then Err(x.msg) else Ok(Era5Entries(v, x.value))
    else
      var f := SeasForecast(season, month, day, st, v);
      SeasContribution(if source.value.partial then Updated(cfg, f, st.era5(Era5PartialName(season, v)), season, v) else Ok(f), season, v)
  }

  /** A predictor read from a SEAS5.1 forecast issued the month before a
      partial ERA5 month of accumulated values (snowfall read on November
      1-6, say) stops the scripts as written when neither the members nor
      the kept days number 1 or each other; nothing is written then. */
  lemma WeeklyEntryStops(cfg: Config, season: int, month: int, day: int, st: Store, v: Variable, j0: int)
    requires 1 <= month <= 12 && v in Variables && 1 <= v.month <= 12 && ValidStore(st) && !cfg.perMemberSums
    requires WeeklySource(season, month, day, st, v) == Ok(Seas51(true)) && v.agg == Sum
    requires Misfits(SeasForecast(season, month, day, st, v), PartialDays(cfg, st.era5(Era5PartialName(season, v)), season, v), j0)
    ensures WeeklyEntry(cfg, season, month, day, st, v).Err?
  {
    UpdatedStops(cfg, SeasForecast(season, month, day, st, v), st.era5(Era5PartialName(season, v)), season, v, j0);
    PartialEntry(cfg, season, month, day, st, v);
  }

  /** A predictor with a partial ERA5 file takes the updated forecast. */
  lemma PartialEntry(cfg: Config, season: int, month: int, day: int, st: Store, v: Variable)
    requires 1 <= month <= 12 && v in Variables && 1 <= v.month <= 12 && ValidStore(st)
    requires WeeklySource(season, month, day, st, v) == Ok(Seas51(true))
    ensures WeeklyEntry(cfg, season, month, day, st, v)
      == SeasContribution(Updated(cfg, SeasForecast(season, month, day, st, v), st.era5(Era5PartialName(season, v)), season, v), season, v)
  {
  }

  /** The update of `WeeklyEntryStops`. */
  lemma UpdatedStops(cfg: Config, f: Forecast, e: Era5File, season: int, v: Variable, j0: int)
    requires WellShaped(f) && ValidHours(e.hours) && !cfg.perMemberSums && v.agg == Sum
    requires Misfits(f, PartialDays(cfg, e, season, v), j0)
    ensures Updated(cfg, f, e, season, v).Err?
  {
    EarlierSumStops(f, PartialDays(cfg, e, season, v), cfg.asColumn, j0);
  }

  /** The full ERA5 month of a predictor, written under both its keys. */
  function Era5Entries(v: Variable, x: real): (r: Vars)
    ensures r.Keys == KeysOf(v)
    ensures r[v.name] == Scalar(x) && r[MeanKey(v)] == Scalar(x)
  {
    assert v.name != MeanKey(v) by {
      assert |MeanKey(v)| == |v.name| + 2;
    }
    map[v.name := Scalar(x), MeanKey(v) := Scalar(x)]
  }

  /** Which file one predictor is read from. */
  function WeeklySource(season: int, month: int, day: int, st: Store, v: Variable): Result<Source>
    requires 1 <= month <= 12 && v in Variables
  {
    ChooseSource(st.files, Era5Name(season, v), WeeklySeasFile(season, month, day, v), Some(Era5PartialName(season, v)), v)
  }

  /** The SEAS5.1 keys from the (updated) forecast. */
  function SeasContribution(g: Result<Forecast>, season: int, v: Variable): (r: Result<Vars>)
    requires v in Variables && (g.Ok? ==> WellShaped(g.value))
    ensures r.Ok? ==> r.value.Keys == KeysOf(v)
  {
    if g.Err? then Err(g.msg)
    else
      var xs := SeasAggregate(g.value, season, v);
      if xs.Err? then Err(xs.msg) else Ok(SeasEntries(v, xs.value))
  }

  /** What the sources decide on their own: the full ERA5 month writes its
      value under both keys, and neither file is an abort. */
  lemma WeeklyEntryCases(cfg: Config, season: int, month: int, day: int, st: Store, v: Variable)
    requires 1 <= month <= 12 && v in Variables && ValidStore(st)
    ensures Era5Name(season, v) in st.files ==>
      var x := Era5Value(st.era5(Era5Name(season, v)), v);
      (WeeklyEntry(cfg, season, month, day, st, v).Ok? <==> x.Ok?)
      && (x.Ok? ==>
        WeeklyEntry(cfg, season, month, day, st, v).value[v.name] == Scalar(x.value)
        && WeeklyEntry(cfg, season, month, day, st, v).value[MeanKey(v)] == Scalar(x.value))
    ensures Era5Name(season, v) !in st.files && WeeklySeasFile(season, month, day, v) !in st.files ==>
      WeeklyEntry(cfg, season, month, day, st, v) == Err(v.name + " not found")
  {
  }

  /** Without a partial ERA5 file, and once the weekly and monthly jobs
      read the same SEAS5.1 issue, the weekly contribution succeeds exactly
      when the monthly one does and agrees with it on every key the monthly
      one writes; its extra key repeats the full ERA5 value. */
  lemma WeeklyAgreesWithMonthly(cfg: Config, season: int, month: int, day: int, st: Store, v: Variable)
    requires 1 <= month <= 12 && v in Variables && ValidStore(st)
    requires v.month < month || day >= FirstIssueDay
    requires Era5PartialName(season, v) !in st.files
    ensures WeeklyEntry(cfg, season, month, day, st, v).Ok? <==> MonthlyPrepro.Entry(season, month, st, v).Ok?
    ensures MonthlyPrepro.Entry(season, month, st, v).Ok? ==>
      var w := WeeklyEntry(cfg, season, month, day, st, v).value;
      var m := MonthlyPrepro.Entry(season, month, st, v).value;
      (forall k :: k in m ==> k in w && w[k] == m[k])
      && (Era5Name(season, v) in st.files ==> w[v.name] == m[MeanKey(v)])
  {
    WeeklyIssueVersusMonthly(month, day, v);
    assert WeeklySeasFile(season, month, day, v) == MonthlyPrepro.SeasFile(season, month, v);
  }

  /** A day kept by the older copy is kept by the newer one when it is
      complete. */
  lemma {:induction false} KeptDaysComplete(hs: seq<Hourly>, units: string, v: Variable, ds: seq<Calendar.Date>, from: Calendar.Date)
    requires forall i :: 0 <= i < |ds| ==> |HoursOn(hs, ds[i])| == 24
    ensures KeptDays(hs, units, v, ds, from, true) == KeptDays(hs, units, v, ds, from, false)
    decreases |ds|
  {
    if ds != [] {
      var n := |ds| - 1;
      assert forall i :: 0 <= i < n ==> ds[..n][i] == ds[i];
      KeptDaysComplete(hs, units, v, ds[..n], from);
      assert KeepDay(hs, ds[n], from, true) == KeepDay(hs, ds[n], from, false);
    }
  }

  /** With complete days only, the full-day filter drops nothing. */
  lemma PartialDaysComplete(e: Era5File, season: int, v: Variable)
    requires ValidHours(e.hours)
    requires forall i :: 0 <= i < |e.hours| ==> |HoursOn(e.hours, e.hours[i].day)| == 24
    ensures PartialDays(Prepro, e, season, v) == PartialDays(Preprocess, e, season, v)
  {
    var ds := DistinctDays(e.hours, |e.hours|);
    forall i | 0 <= i < |ds|
      ensures |HoursOn(e.hours, ds[i])| == 24
    {
      assert ds[i] in ds;
    }
    KeptDaysComplete(e.hours, e.units, v, ds, Calendar.Date(season, v.month, 1));
  }

  /** The column reshape only matters for a single ERA5 day. */
  lemma PlanAtNoReshape(days: seq<DailyValue>, agg: Aggregation, g: seq<seq<real>>, n: int, same: bool, i1: int, i2: int)
    requires |days| > 0 && Rect(g, n) && 0 <= i1 < n && 0 <= i2 < n && |days| != 1
    ensures PlanAt(days, agg, g, n, true, same, i1, i2) == PlanAt(days, agg, g, n, false, same, i1, i2)
  {
  }

  /** Hence neither does the plan, intended or as written. */
  lemma SplicePlanNoReshape(steps: seq<Calendar.Date>, days: seq<DailyValue>, agg: Aggregation, g: seq<seq<real>>)
    requires |steps| > 0 && |days| > 1 && ValidSteps(steps) && ValidDays(days) && Rect(g, |steps|)
    ensures SplicePlan(steps, days, agg, g, true) == SplicePlan(steps, days, agg, g, false)
    ensures SplicePlanAsWritten(steps, days, agg, g, true) == SplicePlanAsWritten(steps, days, agg, g, false)
  {
    var same := SameMonthIssue(steps, days);
    PlanAtNoReshape(days, agg, g, |steps|, same, if same then 0 else FirstStep(steps, days), LastStep(steps, days));
  }

  /** Hence the splice does not depend on the reshape either. */
  lemma SpliceDaysNoReshape(f: Forecast, days: seq<DailyValue>, agg: Aggregation, perMember: bool)
    requires WellShaped(f) && ValidDays(days) && |days| != 1
    ensures SpliceDays(f, days, agg, true, perMember) == SpliceDays(f, days, agg, false, perMember)
  {
    if |f.steps| > 0 && |days| > 0 {
      SplicePlanNoReshape(f.steps, days, agg, f.members);
      assert PlanOf(f, days, agg, true, perMember) == PlanOf(f, days, agg, false, perMember);
    }
  }

  /** The update the two copies make agrees when the full-day filter drops
      nothing and the column reshape does not apply. */
  lemma UpdatedAgree(f: Forecast, e: Era5File, season: int, v: Variable, perMember: bool)
    requires WellShaped(f) && ValidHours(e.hours)
    requires forall i :: 0 <= i < |e.hours| ==> |HoursOn(e.hours, e.hours[i].day)| == 24
    requires |PartialDays(Preprocess, e, season, v)| != 1
    ensures Updated(Prepro.(perMemberSums := perMember), f, e, season, v)
      == Updated(Preprocess.(perMemberSums := perMember), f, e, season, v)
  {
    PartialDaysComplete(e, season, v);
    assert PartialDays(Prepro.(perMemberSums := perMember), e, season, v) == PartialDays(Prepro, e, season, v);
    assert PartialDays(Preprocess.(perMemberSums := perMember), e, season, v) == PartialDays(Preprocess, e, season, v);
    SpliceDaysNoReshape(f, PartialDays(Preprocess, e, season, v), v.agg, perMember);
  }

  /** The two copies of the script agree, as written and as intended,
      whenever the partial ERA5 month holds only complete days and does not
      come down to a single day. */
  lemma ScriptsAgree(season: int, month: int, day: int, st: Store, v: Variable, perMember: bool)
    requires 1 <= month <= 12 && v in Variables && ValidStore(st)
    requires var hs := st.era5(Era5PartialName(season, v)).hours;
      forall i :: 0 <= i < |hs| ==> |HoursOn(hs, hs[i].day)| == 24
    requires |PartialDays(Preprocess, st.era5(Era5PartialName(season, v)), season, v)| != 1
    ensures WeeklyEntry(Prepro.(perMemberSums := perMember), season, month, day, st, v)
      == WeeklyEntry(Preprocess.(perMemberSums := perMember), season, month, day, st, v)
  {
    if WeeklySource(season, month, day, st, v) == Ok(Seas51(true)) {
      PartialEntriesAgree(season, month, day, st, v, perMember);
    }
  }

  /** The case of `ScriptsAgree` where the partial ERA5 file is used. */
  lemma PartialEntriesAgree(season: int, month: int, day: int, st: Store, v: Variable, perMember: bool)
    requires 1 <= month <= 12 && v in Variables && ValidStore(st)
    requires WeeklySource(season, month, day, st, v) == Ok(Seas51(true))
    requires var hs := st.era5(Era5PartialName(season, v)).hours;
      forall i :: 0 <= i < |hs| ==> |HoursOn(hs, hs[i].day)| == 24
    requires |PartialDays(Preprocess, st.era5(Era5PartialName(season, v)), season, v)| != 1
    ensures WeeklyEntry(Prepro.(perMemberSums := perMember), season, month, day, st, v)
      == WeeklyEntry(Preprocess.(perMemberSums := perMember), season, month, day, st, v)
  {
    var f := SeasForecast(season, month, day, st, v);
    var e := st.era5(Era5PartialName(season, v));
    var a := Prepro.(perMemberSums := perMember);
    var b := Preprocess.(perMemberSums := perMember);
    UpdatedAgree(f, e, season, v, perMember);
    assert WeeklyEntry(a, season, month, day, st, v) == SeasContribution(Updated(a, f, e, season, v), season, v);
    assert WeeklyEntry(b, season, month, day, st, v) == SeasContribution(Updated(b, f, e, season, v), season, v);
  }

  // ---------------------------------------------------------------------
  // The job

  /** The contributions of the three predictors, in order. */
  function WeeklyEntries(cfg: Config, season: int, month: int, day: int, st: Store): (es: seq<Result<Vars>>)
    requires 1 <= month <= 12 && ValidStore(st)
    ensures |es| == |Variables|
    ensures forall i :: 0 <= i < |Variables| ==> es[i] == WeeklyEntry(cfg, season, month, day, st, Variables[i])
    ensures forall i :: 0 <= i < |Variables| && es[i].Ok? ==> es[i].value.Keys == KeysOf(Variables[i])
  {
    [WeeklyEntry(cfg, season, month, day, st, Variables[0]),
     WeeklyEntry(cfg, season, month, day, st, Variables[1]),
     WeeklyEntry(cfg, season, month, day, st, Variables[2])]
  }

  /** The job: the season year (nothing before July 7), then the
      predictors in order. */
  function Weekly(cfg: Config, year: int, month: int, day: int, st: Store): (r: Result<Vars>)
    requires 1 <= month <= 12 && ValidStore(st)
    ensures month == 5 || month == 6 ==> r == Err(NothingToDo)
    ensures month == 7 && day < FirstIssueDay ==> r == Err(TooEarly)
  {
    var season := WeeklySeasonYear(year, month, day);
    if season.Err? then Err(season.msg) else Collect(WeeklyEntries(cfg, season.value, month, day, st))
  }

  /** The job succeeds, and writes its marker, exactly when it runs at all
      and every predictor resolves; the dataset then holds each
      predictor's contribution unchanged and nothing else. */
  lemma WeeklyWritesAll(cfg: Config, year: int, month: int, day: int, st: Store)
    requires 1 <= month <= 12 && ValidStore(st)
    ensures Weekly(cfg, year, month, day, st).Ok? <==>
      month != 5 && month != 6 && !(month == 7 && day < FirstIssueDay)
      && forall i :: 0 <= i < |Variables| ==>
        WeeklyEntries(cfg, WeeklySeasonYear(year, month, day).value, month, day, st)[i].Ok?
    ensures Weekly(cfg, year, month, day, st).Ok? ==>
      HoldsAll(Weekly(cfg, year, month, day, st).value, WeeklyEntries(cfg, WeeklySeasonYear(year, month, day).value, month, day, st))
      && OnlyFrom(Weekly(cfg, year, month, day, st).value, WeeklyEntries(cfg, WeeklySeasonYear(year, month, day).value, month, day, st))
  {
    WeeklyRuns(cfg, year, month, day, st);
    if Weekly(cfg, year, month, day, st).Ok? {
      WeeklyHolds(cfg, year, month, day, st);
    }
  }

  /** The second half of `WeeklyWritesAll`: what a successful job writes. */
  lemma WeeklyHolds(cfg: Config, year: int, month: int, day: int, st: Store)
    requires 1 <= month <= 12 && ValidStore(st)
    requires Weekly(cfg, year, month, day, st).Ok?
    ensures WeeklySeasonYear(year, month, day).Ok?
    ensures var es := WeeklyEntries(cfg, WeeklySeasonYear(year, month, day).value, month, day, st);
      HoldsAll(Weekly(cfg, year, month, day, st).value, es) && OnlyFrom(Weekly(cfg, year, month, day, st).value, es)
  {
    var es := WeeklyEntries(cfg, WeeklySeasonYear(year, month, day).value, month, day, st);
    assert Weekly(cfg, year, month, day, st) == Collect(es);
    CollectVariables(es);
  }

  /** The first half of `WeeklyWritesAll`: when the job succeeds. */
  lemma WeeklyRuns(cfg: Config, year: int, month: int, day: int, st: Store)
    requires 1 <= month <= 12 && ValidStore(st)
    ensures Weekly(cfg, year, month, day, st).Ok? <==>
      month != 5 && month != 6 && !(month == 7 && day < FirstIssueDay)
      && forall i :: 0 <= i < |Variables| ==>
        WeeklyEntries(cfg, WeeklySeasonYear(year, month, day).value, month, day, st)[i].Ok?
  {
    if WeeklySeasonYear(year, month, day).Ok? {
      var es := WeeklyEntries(cfg, WeeklySeasonYear(year, month, day).value, month, day, st);
      assert Weekly(cfg, year, month, day, st) == Collect(es);
    }
  }

  /** Unlike the monthly job, the weekly one always writes both keys of
      every predictor: six keys in all. */
  lemma WeeklyHasAllKeys(cfg: Config, year: int, month: int, day: int, st: Store)
    requires 1 <= month <= 12 && ValidStore(st)
    ensures Weekly(cfg, year, month, day, st).Ok? ==>
      forall i :: 0 <= i < |Variables| ==>
        Variables[i].name in Weekly(cfg, year, month, day, st).value
        && MeanKey(Variables[i]) in Weekly(cfg, year, month, day, st).value
  {
    WeeklyWritesAll(cfg, year, month, day, st);
    if Weekly(cfg, year, month, day, st).Ok? {
      var es := WeeklyEntries(cfg, WeeklySeasonYear(year, month, day).value, month, day, st);
      var r := Weekly(cfg, year, month, day, st).value;
      forall i | 0 <= i < |Variables|
        ensures Variables[i].name in r && MeanKey(Variables[i]) in r
      {
        assert es[i].Ok? && es[i].value.Keys == KeysOf(Variables[i]);
        HoldsAllAt(r, es, i, Variables[i].name);
        HoldsAllAt(r, es, i, MeanKey(Variables[i]));
      }
    }
  }

  // ---------------------------------------------------------------------
  // The job as the script runs it: the forecast array updated in place

  /** The members x steps array of a forecast. */
  method Load(g: seq<seq<real>>, n: nat) returns (a: array2<real>)
    requires Rect(g, n)
    ensures fresh(a) && a.Length0 == |g| && a.Length1 == n && Grid(a) == g
  {
    a := new real[|g|, n];
    for i := 0 to |g|
      invariant forall i', k :: 0 <= i' < i && 0 <= k < n ==> a[i', k] == g[i'][k]
    {
      for k := 0 to n
        invariant forall i', k' :: 0 <= i' < i && 0 <= k' < n ==> a[i', k'] == g[i'][k']
        invariant forall k' :: 0 <= k' < k ==> a[i, k'] == g[i][k']
      {
        a[i, k] := g[i][k];
      }
    }
    assert forall i :: 0 <= i < |g| ==> Grid(a)[i] == g[i];
  }

  /** The splice done on the forecast's array. */
  method SpliceMembers(f: Forecast, p: Plan) returns (r: Forecast)
    requires WellShaped(f) && PlanFits(p, |f.members|, |f.steps|)
    ensures r == Forecast(f.units, f.steps, Spliced(f.members, |f.steps|, p))
  {
    var a := Load(f.members, |f.steps|);
    SpliceGrid(a, p);
    r := Forecast(f.units, f.steps, Grid(a));
  }

  /** The update as the script makes it. */
  method RunUpdated(cfg: Config, f: Forecast, e: Era5File, season: int, v: Variable) returns (r: Result<Forecast>)
    requires WellShaped(f) && ValidHours(e.hours)
    ensures r == Updated(cfg, f, e, season, v)
  {
    var days := PartialDays(cfg, e, season, v);
    r := RunSpliceDays(f, days, v.agg, cfg.asColumn, cfg.perMemberSums);
  }

  /** Locate the block, then write it into the forecast's array. */
  method RunSpliceDays(f: Forecast, days: seq<DailyValue>, agg: Aggregation, asColumn: bool, perMember: bool) returns (r: Result<Forecast>)
    requires WellShaped(f) && ValidDays(days)
    ensures r == SpliceDays(f, days, agg, asColumn, perMember)
  {
    if |f.steps| == 0 || |days| == 0 {
      return Err(IndexError);
    }
    var p := PlanOf(f, days, agg, asColumn, perMember);
    if p.Err? {
      return Err(p.msg);
    }
    var g := SpliceMembers(f, p.value);
    r := Ok(g);
  }

  /** One predictor, with the forecast array updated in place when a
      partial ERA5 month exists. */
  method RunWeeklyEntry(cfg: Config, season: int, month: int, day: int, st: Store, v: Variable) returns (r: Result<Vars>)
    requires 1 <= month <= 12 && v in Variables && ValidStore(st)
    ensures r == WeeklyEntry(cfg, season, month, day, st, v)
  {
    var source := WeeklySource(season, month, day, st, v);
    if source.Err? {
      return Err(source.msg);
    }
    if source.value == Era5Full {
      var x := Era5Value(st.era5(Era5Name(season, v)), v);
      if x.Err? {
        return Err(x.msg);
      }
      return Ok(map[v.name := Scalar(x.value), MeanKey(v) := Scalar(x.value)]);
    }
    var f := SeasForecast(season, month, day, st, v);
    if source.value.partial {
      var g := RunUpdated(cfg, f, st.era5(Era5PartialName(season, v)), season, v);
      if g.Err? {
        return Err(g.msg);
      }
      f := g.value;
    }
    var xs := SeasAggregate(f, season, v);
    if xs.Err? {
      return Err(xs.msg);
    }
    r := Ok(SeasEntries(v, xs.value));
  }

  /** The job as the script runs it: one predictor after the other into a
      growing dataset, stopping at the first abort. */
  method RunWeekly(cfg: Config, year: int, month: int, day: int, st: Store) returns (r: Result<Vars>)
    requires 1 <= month <= 12 && ValidStore(st)
    ensures r == Weekly(cfg, year, month, day, st)
  {
    var season := WeeklySeasonYear(year, month, day);
    if season.Err? {
      return Err(season.msg);
    }
    ghost var es := WeeklyEntries(cfg, season.value, month, day, st);
    var vars: Vars := map[];
    var i := 0;
    while i < |Variables|
      invariant 0 <= i <= |Variables|
      invariant Collect(es[..i]) == Ok(vars)
    {
      var e := RunWeeklyEntry(cfg, season.value, month, day, st, Variables[i]);
      if e.Err? {
        CollectStops(es, i);
        return Err(e.msg);
      }
      CollectStep(es, i);
      vars := vars + e.value;
      i := i + 1;
    }
    assert es[..i] == es;
    r := Ok(vars);
  }
}
