/** What the monthly and weekly predictor jobs share (`prepro/monthly_preprocess.py`,
    `preprocess/monthly_preprocess.py`, `prepro/weekly_preprocess.py`,
    `preprocess/weekly_preprocess.py`): the three predictors, the season
    year, the file names, the ERA5 > SEAS5.1 precedence, the Kelvin
    conversion and the monthly aggregations.

    A GRIB file is given by what the scripts use of it after decoding and
    the latitude/longitude mean: an ERA5 file is a list of hourly values
    with their valid time, a SEAS5.1 file an ensemble of members over
    daily steps. */
module Predictors {
  import opened Wrappers
  import Calendar
  import Text
  import Numeric

  datatype Aggregation = Sum | Mean

  /** A predictor: its ERA5/SEAS5.1 name, its short GRIB name, the month it
      describes, that month's last day and its monthly aggregation. */
  datatype Variable = Variable(name: string, short: string, month: int, lastDay: int, agg: Aggregation)

  const Variables: seq<Variable> := [
    Variable("2m_temperature", "t2m", 12, 31, Mean),
    Variable("snowfall", "sf", 11, 30, Sum),
    Variable("total_cloud_cover", "tcc", 9, 30, Mean)
  ]

  const NothingToDo: string := "Nothing to do in May and June"
  const TooEarly: string := "No weekly forecast before the first monthly forecast has been issued."
  const KelvinOffset: real := 273.15
  /** The weekly job's ERA5 month needs at least this many days of the month. */
  const FirstIssueDay: int := 7

  /** The last day of a predictor's month is a date in every year. */
  lemma LastDayValid(v: Variable, year: int)
    requires v in Variables
    ensures Calendar.ValidDate(Calendar.Date(year, v.month, v.lastDay))
  {
  }

  // ---------------------------------------------------------------------
  // Season year

  /** The year of the forecast season: January to April belong to the
      season of the previous year; May and June have nothing to do. */
  function SeasonYear(year: int, month: int): (r: Result<int>)
    requires 1 <= month <= 12
    ensures r.Err? <==> month == 5 || month == 6
    ensures r.Err? ==> r.msg == NothingToDo
    ensures r.Ok? ==> r.value == (if month <= 4 then year - 1 else year)
  {
    if 1 <= month <= 4 then Ok(year - 1)
    else if month == 5 || month == 6 then Err(NothingToDo)
    else Ok(year)
  }

  /** The season of year `s` runs from July 1 of `s` to April 30 of `s + 1`:
      the season year is the one whose season contains the current month,
      and no season contains May or June. */
  lemma SeasonYearContains(year: int, month: int)
    requires 1 <= month <= 12
    ensures SeasonYear(year, month).Ok? <==> month != 5 && month != 6
    ensures SeasonYear(year, month).Ok? ==>
      var s := SeasonYear(year, month).value;
      Calendar.Before(Calendar.Date(s, 6, 30), Calendar.Date(year, month, 1))
      && Calendar.Before(Calendar.Date(year, month, 1), Calendar.Date(s + 1, 5, 1))
  {
  }

  /** The weekly jobs add that nothing runs before July 7. */
  function WeeklySeasonYear(year: int, month: int, day: int): (r: Result<int>)
    requires 1 <= month <= 12
    ensures month == 7 && day < FirstIssueDay ==> r == Err(TooEarly)
    ensures !(month == 7 && day < FirstIssueDay) ==> r == SeasonYear(year, month)
  {
    if month == 7 && day < FirstIssueDay && SeasonYear(year, month).Ok? then Err(TooEarly)
    else SeasonYear(year, month)
  }

  // ---------------------------------------------------------------------
  // File names

  function Era5Name(year: int, v: Variable): string
    requires 1 <= v.month <= 12
  {
    "downloads/ERA5/ERA5_" + Text.YearText(year) + Text.Pad2(v.month) + "_" + v.name + ".grib"
  }

  /** An ERA5 file name tells the year, the month and the variable. */
  lemma Era5NameDistinct(y1: int, v1: Variable, y2: int, v2: Variable)
    requires 0 <= y1 <= 9999 && 0 <= y2 <= 9999 && 1 <= v1.month <= 12 && 1 <= v2.month <= 12
    requires Era5Name(y1, v1) == Era5Name(y2, v2)
    ensures y1 == y2 && v1.month == v2.month && v1.name == v2.name
  {
    Text.DatedNameFields("downloads/ERA5/ERA5_", ".grib", y1, v1.month, v1.name, y2, v2.month, v2.name);
  }

  function Era5PartialName(year: int, v: Variable): string
    requires 1 <= v.month <= 12
  {
    "downloads/ERA5/ERA5_" + Text.YearText(year) + Text.Pad2(v.month) + "_" + v.name + ".partial.grib"
  }

  function Seas51Name(year: int, issue: int, v: Variable): string
    requires 1 <= issue <= 12
  {
    "downloads/SEAS51/SEAS51_" + Text.YearText(year) + Text.Pad2(issue) + "_" + v.name + ".grib"
  }

  /** A SEAS5.1 file name tells the year, the issue month and the variable. */
  lemma Seas51NameDistinct(y1: int, m1: int, v1: Variable, y2: int, m2: int, v2: Variable)
    requires 0 <= y1 <= 9999 && 0 <= y2 <= 9999 && 1 <= m1 <= 12 && 1 <= m2 <= 12
    requires Seas51Name(y1, m1, v1) == Seas51Name(y2, m2, v2)
    ensures y1 == y2 && m1 == m2 && v1.name == v2.name
  {
    Text.DatedNameFields("downloads/SEAS51/SEAS51_", ".grib", y1, m1, v1.name, y2, m2, v2.name);
  }

  /** The SEAS5.1 issue the monthly jobs read: the predictor's own month
      once it has passed, otherwise the current month. */
  function MonthlyIssue(month: int, v: Variable): (m: int)
    ensures m == v.month || m == month
  {
    if v.month < month then v.month else month
  }

  /** The monthly rule is "the earlier of the two months". */
  lemma MonthlyIssueIsEarlier(month: int, v: Variable)
    ensures MonthlyIssue(month, v) <= month && MonthlyIssue(month, v) <= v.month
    ensures MonthlyIssue(month, v) == month || MonthlyIssue(month, v) == v.month
  {
  }

  /** The weekly jobs read the previous month's issue during the first six
      days of a month (the current issue is not out yet), December for
      January. */
  function WeeklyIssue(month: int, day: int, v: Variable): (m: int)
    requires 1 <= month <= 12
    ensures 1 <= v.month <= 12 ==> 1 <= m <= 12
  {
    if v.month < month then v.month
    else if day < FirstIssueDay then (if month == 1 then 12 else month - 1)
    else month
  }

  /** From the 7th on, and whenever the predictor month has passed, the
      weekly choice is the monthly one; before the 7th it falls one month
      back, with January falling back to December. */
  lemma WeeklyIssueVersusMonthly(month: int, day: int, v: Variable)
    requires 1 <= month <= 12
    ensures v.month < month || day >= FirstIssueDay ==> WeeklyIssue(month, day, v) == MonthlyIssue(month, v)
    ensures v.month >= month && day < FirstIssueDay ==>
      WeeklyIssue(month, day, v) == (if month == 1 then 12 else MonthlyIssue(month, v) - 1)
  {
  }

  // ---------------------------------------------------------------------
  // Precedence

  datatype Source = Era5Full | Seas51(partial: bool)

  /** The full ERA5 month if present, else the SEAS5.1 forecast (with or
      without a partial ERA5 month to splice in), else abort. */
  function ChooseSource(files: set<string>, era5: string, seas: string, partial: Option<string>, v: Variable): (r: Result<Source>)
    ensures r == Ok(Era5Full) <==> era5 in files
    ensures r.Err? <==> era5 !in files && seas !in files
    ensures r.Err? ==> r.msg == v.name + " not found"
    ensures r == Ok(Seas51(true)) <==> era5 !in files && seas in files && partial.Some? && partial.value in files
  {
    if era5 in files then Ok(Era5Full)
    else if seas in files then Ok(Seas51(partial.Some? && partial.value in files))
    else Err(v.name + " not found")
  }

  // ---------------------------------------------------------------------
  // Values

  /** Kelvin to Celsius, for the 2 m temperature only and only when the
      file says its unit is "K". */
  function ToCelsius(v: Variable, units: string, x: real): (r: real)
    ensures v.short != "t2m" || units != "K" ==> r == x
    ensures v.short == "t2m" && units == "K" ==> r + KelvinOffset == x
  {
    if v.short == "t2m" && units == "K" then x - KelvinOffset else x
  }

  /** An hourly ERA5 value: the day and second of its valid time. */
  datatype Hourly = Hourly(day: Calendar.Date, second: int, value: real)

  /** The month of a valid time moved back 30 minutes (the "sum" rule);
      only a value stamped in the first half hour of a month's first day
      moves to the previous month. */
  function ShiftedMonth(h: Hourly): (m: int)
    requires 1 <= h.day.month <= 12
    ensures 1 <= m <= 12
    ensures m == h.day.month <==> h.second >= 1800 || h.day.day > 1
    ensures m != h.day.month ==> m == (if h.day.month == 1 then 12 else h.day.month - 1)
  {
    if h.second >= 1800 || h.day.day > 1 then h.day.month
    else if h.day.month == 1 then 12 else h.day.month - 1
  }

  predicate ValidHours(hs: seq<Hourly>) {
    forall i :: 0 <= i < |hs| ==> Calendar.ValidDate(hs[i].day)
  }

  function HourMonth(h: Hourly, shift: bool): int
    requires 1 <= h.day.month <= 12
  {
    if shift then ShiftedMonth(h) else h.day.month
  }

  /** The values `groupby("time.month")` puts into month `month`. */
  function MonthValues(hs: seq<Hourly>, month: int, shift: bool): (r: seq<real>)
    requires ValidHours(hs)
    ensures |r| <= |hs|
    ensures forall x :: x in r ==> exists i :: 0 <= i < |hs| && HourMonth(hs[i], shift) == month && x == hs[i].value
    ensures forall i :: 0 <= i < |hs| && HourMonth(hs[i], shift) == month ==> hs[i].value in r
    decreases |hs|
  {
    if hs == [] then []
    else
      var n := |hs| - 1;
      var init := MonthValues(hs[..n], month, shift);
      if HourMonth(hs[n], shift) == month then init + [hs[n].value] else init
  }

  /** A decoded ERA5 file: the unit attribute and the hourly field means. */
  datatype Era5File = Era5File(units: string, hours: seq<Hourly>)

  function CelsiusValues(v: Variable, units: string, xs: seq<real>): (r: seq<real>)
    ensures |r| == |xs| && forall i :: 0 <= i < |xs| ==> r[i] == ToCelsius(v, units, xs[i])
  {
    seq(|xs|, i requires 0 <= i < |xs| => ToCelsius(v, units, xs[i]))
  }

  /** The full-month ERA5 value: the sum of the (30-minute shifted) hours
      of the predictor month, or their mean; no hour in that month is a
      `KeyError`. */
  function Era5Value(f: Era5File, v: Variable): (r: Result<real>)
    requires ValidHours(f.hours)
    ensures r.Ok? <==> MonthValues(f.hours, v.month, v.agg == Sum) != []
  {
    var xs := CelsiusValues(v, f.units, MonthValues(f.hours, v.month, v.agg == Sum));
    if xs == [] then Err("KeyError: " + v.name)
    else if v.agg == Sum then Ok(Numeric.Sum(xs))
    else Ok(Numeric.Mean(xs))
  }

  /** A decoded SEAS5.1 file: units, the valid date of each daily step and
      one row of step values per ensemble member. */
  datatype Forecast = Forecast(units: string, steps: seq<Calendar.Date>, members: seq<seq<real>>)

  predicate WellShaped(f: Forecast) {
    (forall i :: 0 <= i < |f.steps| ==> Calendar.ValidDate(f.steps[i]))
    && forall m :: 0 <= m < |f.members| ==> |f.members[m]| == |f.steps|
  }

  function DayNumbers(ds: seq<Calendar.Date>): (r: seq<int>)
    requires forall i :: 0 <= i < |ds| ==> Calendar.ValidDate(ds[i])
    ensures |r| == |ds| && forall i :: 0 <= i < |ds| ==> r[i] == Calendar.DayNumber(ds[i])
  {
    seq(|ds|, i requires 0 <= i < |ds| => Calendar.DayNumber(ds[i]))
  }

  /** The steps of the predictor month (`groupby("time.month")`). */
  function StepsInMonth(steps: seq<Calendar.Date>, month: int, n: nat): (r: seq<int>)
    requires n <= |steps|
    ensures forall k :: 0 <= k < |r| ==> 0 <= r[k] < n && steps[r[k]].month == month
    ensures forall i :: 0 <= i < n && steps[i].month == month ==> i in r
    decreases n
  {
    if n == 0 then []
    else if steps[n - 1].month == month then StepsInMonth(steps, month, n - 1) + [n - 1]
    else StepsInMonth(steps, month, n - 1)
  }

  function Pick(row: seq<real>, idx: seq<int>): (r: seq<real>)
    requires forall k :: 0 <= k < |idx| ==> 0 <= idx[k] < |row|
    ensures |r| == |idx| && forall k :: 0 <= k < |idx| ==> r[k] == row[idx[k]]
  {
    seq(|idx|, k requires 0 <= k < |idx| => row[idx[k]])
  }

  /** The forecast with the Kelvin conversion applied to every value. */
  function Celsius(f: Forecast, v: Variable): (r: Forecast)
    requires WellShaped(f)
    ensures WellShaped(r) && r.steps == f.steps && |r.members| == |f.members|
    ensures forall m, k :: 0 <= m < |f.members| && 0 <= k < |f.steps| ==>
      r.members[m][k] == ToCelsius(v, f.units, f.members[m][k])
  {
    Forecast(f.units, f.steps,
      seq(|f.members|, m requires 0 <= m < |f.members| => CelsiusValues(v, f.units, f.members[m])))
  }

  /** The per-member monthly SEAS5.1 value: for "sum" the accumulated
      value at the step nearest the predictor month's last day, for "mean"
      the average of the steps in the predictor month (`KeyError` when
      there are none); no step at all is an error as well. */
  function SeasAggregate(f: Forecast, year: int, v: Variable): (r: Result<seq<real>>)
    requires WellShaped(f) && v in Variables
    ensures r.Ok? ==> |r.value| == |f.members| && |f.steps| > 0
    ensures r.Ok? <==> |f.steps| > 0 && (v.agg == Mean ==> StepsInMonth(f.steps, v.month, |f.steps|) != [])
    ensures r.Ok? && |f.steps| > 0 && v.agg == Sum ==> forall m :: 0 <= m < |f.members| ==>
      r.value[m] == f.members[m][Numeric.Nearest(DayNumbers(f.steps),
        (LastDayValid(v, year); Calendar.DayNumber(Calendar.Date(year, v.month, v.lastDay))))]
    ensures r.Ok? && v.agg == Mean && StepsInMonth(f.steps, v.month, |f.steps|) != [] ==> forall m :: 0 <= m < |f.members| ==>
      r.value[m] == Numeric.Mean(Pick(f.members[m], StepsInMonth(f.steps, v.month, |f.steps|)))
  {
    LastDayValid(v, year);
    if |f.steps| == 0 then Err("no steps")
    else if v.agg == Sum then
      var k := Numeric.Nearest(DayNumbers(f.steps), Calendar.DayNumber(Calendar.Date(year, v.month, v.lastDay)));
      Ok(seq(|f.members|, m requires 0 <= m < |f.members| => f.members[m][k]))
    else
      var idx := StepsInMonth(f.steps, v.month, |f.steps|);
      if idx == [] then Err("KeyError: " + v.name)
      else
        Ok(seq(|f.members|, m requires 0 <= m < |f.members| => Numeric.Mean(Pick(f.members[m], idx))))
  }

  /** An accumulated value is read at the predictor month's last day when
      the forecast has a step on that day and the steps ascend. */
  lemma SumReadsLastDay(f: Forecast, year: int, v: Variable, k: int)
    requires WellShaped(f) && v in Variables && v.agg == Sum
    requires 0 <= k < |f.steps| && f.steps[k] == Calendar.Date(year, v.month, v.lastDay)
    requires forall i, j :: 0 <= i < j < |f.steps| ==> Calendar.DayNumber(f.steps[i]) < Calendar.DayNumber(f.steps[j])
    ensures SeasAggregate(f, year, v).Ok?
    ensures forall m :: 0 <= m < |f.members| ==> SeasAggregate(f, year, v).value[m] == f.members[m][k]
  {
    var ts := DayNumbers(f.steps);
    Numeric.NearestExact(ts, ts[k], k);
  }

  /** What a predictor key holds in the output dataset. */
  datatype Value = Scalar(x: real) | Members(xs: seq<real>) | Missing

  /** `mean("number")`: the ensemble mean, missing (NaN) without members. */
  function MemberMean(xs: seq<real>): (r: Value)
    ensures |xs| > 0 ==> r == Scalar(Numeric.Mean(xs))
    ensures |xs| == 0 ==> r == Missing
  {
    if |xs| == 0 then Missing else Scalar(Numeric.Mean(xs))
  }

  /** The mean of equal member values is that value. */
  lemma MemberMeanOfEqual(xs: seq<real>, x: real)
    requires |xs| > 0 && forall i :: 0 <= i < |xs| ==> xs[i] == x
    ensures MemberMean(xs) == Scalar(x)
  {
    Numeric.MeanBounds(xs, x, x);
  }

  /** The output dataset: key to value. */
  type Vars = map<string, Value>

  function MeanKey(v: Variable): string {
    v.name + "_m"
  }

  /** The two SEAS5.1 keys: the members and their mean. */
  function SeasEntries(v: Variable, xs: seq<real>): (r: Vars)
    ensures r.Keys == {v.name, MeanKey(v)}
    ensures r[v.name] == Members(xs) && r[MeanKey(v)] == MemberMean(xs)
  {
    assert v.name != MeanKey(v) by {
      assert |MeanKey(v)| == |v.name| + 2;
    }
    map[v.name := Members(xs), MeanKey(v) := MemberMean(xs)]
  }

  // ---------------------------------------------------------------------
  // The files a job sees and what it writes

  /** The download directory: which files exist and what each decodes to. */
  datatype Store = Store(files: set<string>, era5: string -> Era5File, seas: string -> Forecast)

  /** Decoded files are rectangular and carry valid dates. */
  ghost predicate ValidStore(st: Store) {
    forall name :: ValidHours(st.era5(name).hours) && WellShaped(st.seas(name))
  }

  /** The keys one variable may write. */
  function KeysOf(v: Variable): set<string> {
    {v.name, MeanKey(v)}
  }

  /** The three predictors write to distinct keys. */
  lemma KeysDisjoint(i: int, j: int)
    requires 0 <= i < |Variables| && 0 <= j < |Variables| && i != j
    ensures KeysOf(Variables[i]) !! KeysOf(Variables[j])
  {
  }

  /** The dataset written from the variables' contributions taken in
      order: the first abort stops the job, otherwise the union. */
  function Collect(es: seq<Result<Vars>>): (r: Result<Vars>)
    ensures r.Ok? <==> forall i :: 0 <= i < |es| ==> es[i].Ok?
    ensures r.Err? ==> exists i :: (0 <= i < |es| && es[i].Err? && r.msg == es[i].msg
      && forall j :: 0 <= j < i ==> es[j].Ok?)
    decreases |es|
  {
    if es == [] then Ok(map[])
    else
      var n := |es| - 1;
      var prev := Collect(es[..n]);
      assert forall i :: 0 <= i < n ==> es[..n][i] == es[i];
      if prev.Err? then prev
      else if es[n].Err? then Err(es[n].msg)
      else Ok(prev.value + es[n].value)
  }

  /** One more contribution that resolves is added to the dataset. */
  lemma CollectStep(es: seq<Result<Vars>>, i: int)
    requires 0 <= i < |es| && Collect(es[..i]).Ok? && es[i].Ok?
    ensures Collect(es[..i + 1]) == Ok(Collect(es[..i]).value + es[i].value)
  {
    assert es[..i + 1][..i] == es[..i];
  }

  /** The first contribution that aborts decides the job's error. */
  lemma CollectStops(es: seq<Result<Vars>>, i: int)
    requires 0 <= i < |es| && Collect(es[..i]).Ok? && es[i].Err?
    ensures Collect(es) == Err(es[i].msg)
  {
    assert forall j :: 0 <= j < i ==> es[..i][j] == es[j];
  }

  /** Every key a contribution writes is in the dataset with its value. */
  ghost predicate HoldsAll(r: Vars, es: seq<Result<Vars>>) {
    forall i, k :: 0 <= i < |es| && es[i].Ok? && k in es[i].value ==> k in r && r[k] == es[i].value[k]
  }

  lemma HoldsAllAt(r: Vars, es: seq<Result<Vars>>, i: int, k: string)
    requires HoldsAll(r, es) && 0 <= i < |es| && es[i].Ok? && k in es[i].value
    ensures k in r && r[k] == es[i].value[k]
  {
  }

  /** Every key of the dataset was written by some contribution. */
  ghost predicate OnlyFrom(r: Vars, es: seq<Result<Vars>>) {
    forall k :: k in r ==> exists i :: 0 <= i < |es| && es[i].Ok? && k in es[i].value
  }

  /** With disjoint keys nothing is overwritten: the dataset holds every
      contribution unchanged and nothing else. */
  lemma {:induction false} CollectUnion(es: seq<Result<Vars>>)
    requires forall i, j :: 0 <= i < j < |es| && es[i].Ok? && es[j].Ok? ==> es[i].value.Keys !! es[j].value.Keys
    ensures Collect(es).Ok? ==> HoldsAll(Collect(es).value, es) && OnlyFrom(Collect(es).value, es)
    decreases |es|
  {
    if es != [] && Collect(es).Ok? {
      var n := |es| - 1;
      var init := es[..n];
      assert forall i :: 0 <= i < n ==> init[i] == es[i];
      CollectUnion(init);
      var p := Collect(init).value;
      var r := Collect(es).value;
      assert r == p + es[n].value;
      forall i, k | 0 <= i < |es| && es[i].Ok? && k in es[i].value
        ensures k in r && r[k] == es[i].value[k]
      {
        if i < n {
          assert init[i] == es[i];
          assert k in p && p[k] == es[i].value[k];
          assert k !in es[n].value;
        }
      }
      forall k | k in r
        ensures exists i :: 0 <= i < |es| && es[i].Ok? && k in es[i].value
      {
        if k !in es[n].value {
          assert k in p;
          var i :| 0 <= i < n && init[i].Ok? && k in init[i].value;
          assert es[i] == init[i];
        }
      }
    }
  }

  /** The predictors' contributions, each within its own keys, are
      written side by side. */
  lemma CollectVariables(es: seq<Result<Vars>>)
    requires |es| == |Variables|
    requires forall i :: 0 <= i < |es| && es[i].Ok? ==> es[i].value.Keys <= KeysOf(Variables[i])
    ensures Collect(es).Ok? ==> HoldsAll(Collect(es).value, es) && OnlyFrom(Collect(es).value, es)
  {
    forall i, j | 0 <= i < j < |es| && es[i].Ok? && es[j].Ok?
      ensures es[i].value.Keys !! es[j].value.Keys
    {
      KeysDisjoint(i, j);
    }
    CollectUnion(es);
  }
}
