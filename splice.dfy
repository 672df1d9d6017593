/** The weekly update of a SEAS5.1 ensemble with the days of the current
    month that ERA5 already covers (`prepro/weekly_preprocess.py`,
    `preprocess/weekly_preprocess.py`): the daily ERA5 values, where they
    go in the members x steps grid, what is written there, and the rebase
    of the accumulated values after the last replaced day.

    The grid is an `array2<real>` updated in place; `Spliced` is the pure
    grid it ends up as. numpy's assignment broadcasting is modelled
    explicitly: an assignment whose shapes do not broadcast stops the job. */
module Splice {
  import opened Wrappers
  import Calendar
  import Numeric
  import opened Predictors

  // ---------------------------------------------------------------------
  // Daily ERA5 values

  /** One day of the partial ERA5 month. */
  datatype DailyValue = DailyValue(day: Calendar.Date, value: real)

  /** The distinct days of the first `n` hourly values, in order of first
      appearance (`resample(time="1D")` on values in time order). */
  function DistinctDays(hs: seq<Hourly>, n: nat): (r: seq<Calendar.Date>)
    requires n <= |hs|
    ensures forall d :: d in r <==> exists i :: 0 <= i < n && hs[i].day == d
    ensures forall i, j :: 0 <= i < j < |r| ==> r[i] != r[j]
    decreases n
  {
    if n == 0 then []
    else
      var init := DistinctDays(hs, n - 1);
      if hs[n - 1].day in init then init else init + [hs[n - 1].day]
  }

  /** The values stamped on day `d`. */
  function HoursOn(hs: seq<Hourly>, d: Calendar.Date): (r: seq<real>)
    ensures |r| <= |hs|
    ensures (exists i :: 0 <= i < |hs| && hs[i].day == d) ==> |r| > 0
    decreases |hs|
  {
    if hs == [] then []
    else
      var n := |hs| - 1;
      var init := HoursOn(hs[..n], d);
      assert forall i :: 0 <= i < n ==> hs[..n][i] == hs[i];
      if hs[n].day == d then init + [hs[n].value] else init
  }

  /** A day's sum or mean of its (Celsius) hourly values. */
  function DayValue(hs: seq<Hourly>, units: string, v: Variable, d: Calendar.Date): real
    requires |HoursOn(hs, d)| > 0
  {
    var xs := CelsiusValues(v, units, HoursOn(hs, d));
    if v.agg == Sum then Numeric.Sum(xs) else Numeric.Mean(xs)
  }

  /** Whether a day is kept: on or after the predictor month's first day
      (`sel(time=mslice)`), and, with the full-day filter, one with all 24
      hourly values (`where(fullday == 24).dropna("time")`). */
  predicate KeepDay(hs: seq<Hourly>, d: Calendar.Date, from: Calendar.Date, fullDaysOnly: bool) {
    !Calendar.Before(d, from) && (fullDaysOnly ==> |HoursOn(hs, d)| == 24)
  }

  function KeptDays(hs: seq<Hourly>, units: string, v: Variable, ds: seq<Calendar.Date>, from: Calendar.Date, fullDaysOnly: bool): (r: seq<DailyValue>)
    requires forall i :: 0 <= i < |ds| ==> |HoursOn(hs, ds[i])| > 0
    ensures forall k :: 0 <= k < |r| ==>
      (r[k].day in ds && KeepDay(hs, r[k].day, from, fullDaysOnly) && r[k].value == DayValue(hs, units, v, r[k].day))
    ensures forall d :: d in ds && KeepDay(hs, d, from, fullDaysOnly) ==> exists k :: 0 <= k < |r| && r[k].day == d
    decreases |ds|
  {
    if ds == [] then []
    else
      var n := |ds| - 1;
      var init := KeptDays(hs, units, v, ds[..n], from, fullDaysOnly);
      assert forall d :: d in ds ==> d in ds[..n] || d == ds[n];
      if KeepDay(hs, ds[n], from, fullDaysOnly) then
        var r := init + [DailyValue(ds[n], DayValue(hs, units, v, ds[n]))];
        assert r[|init|].day == ds[n];
        assert forall k :: 0 <= k < |init| ==> r[k] == init[k];
        r
      else init
  }

  /** The daily ERA5 series of the partial month: one value per kept day,
      each the day's sum or mean, and every kept day present. */
  function DailySeries(f: Era5File, v: Variable, from: Calendar.Date, fullDaysOnly: bool): (r: seq<DailyValue>)
    ensures forall k :: 0 <= k < |r| ==>
      (exists i :: 0 <= i < |f.hours| && f.hours[i].day == r[k].day)
      && KeepDay(f.hours, r[k].day, from, fullDaysOnly)
      && r[k].value == DayValue(f.hours, f.units, v, r[k].day)
    ensures forall i :: 0 <= i < |f.hours| && KeepDay(f.hours, f.hours[i].day, from, fullDaysOnly) ==>
      exists k :: 0 <= k < |r| && r[k].day == f.hours[i].day
  {
    var ds := DistinctDays(f.hours, |f.hours|);
    assert forall i :: 0 <= i < |ds| ==> ds[i] in ds;
    KeptDays(f.hours, f.units, v, ds, from, fullDaysOnly)
  }

  function Values(days: seq<DailyValue>): (r: seq<real>)
    ensures |r| == |days| && forall k :: 0 <= k < |days| ==> r[k] == days[k].value
  {
    seq(|days|, k requires 0 <= k < |days| => days[k].value)
  }

  // ---------------------------------------------------------------------
  // Assignment broadcasting

  /** The right-hand side of `grid[:, i1:i2+1] = value`: a 1-D array (one
      value per replaced step), a column (`[:, None]`, one value per
      member) or one row per member. */
  datatype Fill = Row(xs: seq<real>) | Column(xs: seq<real>) | PerMember(rows: seq<seq<real>>)

  /** Python's `i1:i2+1` on an axis of `n >= i2 + 1` steps. */
  function Width(i1: int, i2: int): (w: int)
    ensures w >= 0 && (i1 <= i2 <==> w > 0)
  {
    if i2 + 1 > i1 then i2 + 1 - i1 else 0
  }

  /** numpy accepts the assignment into an `m x w` block: a row must have
      `w` values or one, a column `m` values or one. */
  predicate FillOk(f: Fill, m: int, w: int) {
    match f
    case Row(xs) => |xs| == w || |xs| == 1
    case Column(xs) => |xs| == m || |xs| == 1
    case PerMember(rows) => |rows| == m && forall i :: 0 <= i < m ==> |rows[i]| == w
  }

  /** The value the assignment leaves at member `i`, block step `j`. */
  function FillCell(f: Fill, m: int, w: int, i: int, j: int): real
    requires FillOk(f, m, w) && 0 <= i < m && 0 <= j < w
  {
    match f
    case Row(xs) => if |xs| == 1 then xs[0] else xs[j]
    case Column(xs) => if |xs| == 1 then xs[0] else xs[i]
    case PerMember(rows) => rows[i][j]
  }

  /** The 1-D value, or the column the single-day special case makes of it. */
  function Shape(xs: seq<real>, asColumn: bool): (f: Fill)
    ensures asColumn ==> f == Column(xs)
    ensures !asColumn ==> f == Row(xs)
  {
    if asColumn then Column(xs) else Row(xs)
  }

  /** `a + b` for two 1-D arrays: equal lengths add pointwise, a length-1
      operand is stretched, anything else does not broadcast. */
  function AddBroadcast(a: seq<real>, b: seq<real>): (r: Option<seq<real>>)
    ensures r.Some? <==> |a| == |b| || |a| == 1 || |b| == 1
    ensures |a| == |b| ==> r == Some(seq(|a|, k requires 0 <= k < |a| => a[k] + b[k]))
  {
    if |a| == |b| then Some(seq(|a|, k requires 0 <= k < |a| => a[k] + b[k]))
    else if |a| == 1 then Some(seq(|b|, k requires 0 <= k < |b| => a[0] + b[k]))
    else if |b| == 1 then Some(seq(|a|, k requires 0 <= k < |a| => a[k] + b[0]))
    else None
  }

  // ---------------------------------------------------------------------
  // The grid and its splice

  predicate Rect(g: seq<seq<real>>, n: int) {
    forall i :: 0 <= i < |g| ==> |g[i]| == n
  }

  /** Where the block goes, what fills it, and whether the steps after it
      are rebased (accumulated "sum" variables). */
  datatype Plan = Plan(i1: int, i2: int, fill: Fill, rebase: bool)

  predicate PlanFits(p: Plan, m: int, n: int) {
    0 <= p.i1 < n && 0 <= p.i2 < n && FillOk(p.fill, m, Width(p.i1, p.i2))
  }

  /** The value the last block step holds after the assignment. */
  function NewAtLast(g: seq<seq<real>>, n: int, p: Plan, i: int): real
    requires Rect(g, n) && PlanFits(p, |g|, n) && 0 <= i < |g|
  {
    if p.i1 <= p.i2 then FillCell(p.fill, |g|, Width(p.i1, p.i2), i, p.i2 - p.i1) else g[i][p.i2]
  }

  /** A cell after the splice: the block takes the fill; with a rebase a
      later step is moved by the change at the block's last step
      (`tail - old[:, i2] + new[:, i2]`); everything else is kept. */
  function SplicedCell(g: seq<seq<real>>, n: int, p: Plan, i: int, k: int): real
    requires Rect(g, n) && PlanFits(p, |g|, n) && 0 <= i < |g| && 0 <= k < n
  {
    if p.i1 <= k <= p.i2 then FillCell(p.fill, |g|, Width(p.i1, p.i2), i, k - p.i1)
    else if p.rebase && k > p.i2 then g[i][k] - g[i][p.i2] + NewAtLast(g, n, p, i)
    else g[i][k]
  }

  function Spliced(g: seq<seq<real>>, n: int, p: Plan): (r: seq<seq<real>>)
    requires Rect(g, n) && PlanFits(p, |g|, n)
    ensures |r| == |g| && Rect(r, n)
    ensures forall i, k :: 0 <= i < |g| && 0 <= k < n ==> r[i][k] == SplicedCell(g, n, p, i, k)
  {
    seq(|g|, i requires 0 <= i < |g| => seq(n, k requires 0 <= k < n => SplicedCell(g, n, p, i, k)))
  }

  /** Steps before the block are never touched; without a rebase nothing
      after it is either. */
  lemma SplicedKeepsOutside(g: seq<seq<real>>, n: int, p: Plan, i: int, k: int)
    requires Rect(g, n) && PlanFits(p, |g|, n) && 0 <= i < |g| && 0 <= k < n
    requires k < p.i1 || (k > p.i2 && !p.rebase)
    ensures Spliced(g, n, p)[i][k] == g[i][k]
  {
  }

  /** A rebase keeps every increment after the block: the accumulated
      forecast goes on from the new value at the block's end as it went on
      from the old one. */
  lemma RebaseKeepsIncrements(g: seq<seq<real>>, n: int, p: Plan, i: int, k: int, k2: int)
    requires Rect(g, n) && PlanFits(p, |g|, n) && 0 <= i < |g| && p.rebase
    requires p.i2 < k < n && p.i2 <= k2 < n && p.i1 <= p.i2
    ensures Spliced(g, n, p)[i][k] - Spliced(g, n, p)[i][k2] == g[i][k] - g[i][k2]
  {
  }

  function Grid(a: array2<real>): (g: seq<seq<real>>)
    reads a
    ensures |g| == a.Length0 && Rect(g, a.Length1)
    ensures forall i, k :: 0 <= i < a.Length0 && 0 <= k < a.Length1 ==> g[i][k] == a[i, k]
  {
    seq(a.Length0, i requires 0 <= i < a.Length0 reads a =>
      seq(a.Length1, k requires 0 <= k < a.Length1 reads a => a[i, k]))
  }

  /** `grid[:, i1:i2+1] = fill`, member by member. */
  method FillBlock(a: array2<real>, i1: int, i2: int, f: Fill)
    requires 0 <= i1 < a.Length1 && 0 <= i2 < a.Length1 && FillOk(f, a.Length0, Width(i1, i2))
    modifies a
    ensures forall i, k :: 0 <= i < a.Length0 && 0 <= k < a.Length1 ==>
      a[i, k] == (if i1 <= k <= i2 then FillCell(f, a.Length0, Width(i1, i2), i, k - i1) else old(a[i, k]))
  {
    var w := Width(i1, i2);
    for i := 0 to a.Length0
      invariant forall i', k :: 0 <= i' < a.Length0 && 0 <= k < a.Length1 ==>
        a[i', k] == (if i' < i && i1 <= k <= i2 then FillCell(f, a.Length0, w, i', k - i1) else old(a[i', k]))
    {
      if i1 <= i2 {
        for k := i1 to i2 + 1
          invariant forall i', k' :: 0 <= i' < a.Length0 && 0 <= k' < a.Length1 ==>
            a[i', k'] == (if (i' < i || (i' == i && k' < k)) && i1 <= k' <= i2
              then FillCell(f, a.Length0, w, i', k' - i1) else old(a[i', k']))
        {
          a[i, k] := FillCell(f, a.Length0, w, i, k - i1);
        }
      }
    }
  }

  /** `grid[:, i2+1:] = grid[:, i2+1:] - before[:, None] + grid[:, i2][:, None]`. */
  method RebaseTail(a: array2<real>, i2: int, before: seq<real>)
    requires 0 <= i2 < a.Length1 && |before| == a.Length0
    modifies a
    ensures forall i, k :: 0 <= i < a.Length0 && 0 <= k < a.Length1 ==>
      a[i, k] == (if k > i2 then old(a[i, k]) - before[i] + old(a[i, i2]) else old(a[i, k]))
  {
    for i := 0 to a.Length0
      invariant forall i', k :: 0 <= i' < a.Length0 && 0 <= k < a.Length1 ==>
        a[i', k] == (if i' < i && k > i2 then old(a[i', k]) - before[i'] + old(a[i', i2]) else old(a[i', k]))
    {
      for k := i2 + 1 to a.Length1
        invariant forall i', k' :: 0 <= i' < a.Length0 && 0 <= k' < a.Length1 ==>
          a[i', k'] == (if (i' < i || (i' == i && k' < k)) && k' > i2
            then old(a[i', k']) - before[i'] + old(a[i', i2]) else old(a[i', k']))
      {
        a[i, k] := a[i, k] - before[i] + a[i, i2];
      }
    }
  }

  /** The in-place splice: the grid ends up as `Spliced` of the old grid. */
  method SpliceGrid(a: array2<real>, p: Plan)
    requires PlanFits(p, a.Length0, a.Length1)
    modifies a
    ensures Grid(a) == Spliced(old(Grid(a)), a.Length1, p)
  {
    ghost var g := Grid(a);
    var before := seq(a.Length0, i requires 0 <= i < a.Length0 reads a => a[i, p.i2]);
    FillBlock(a, p.i1, p.i2, p.fill);
    if p.rebase {
      RebaseTail(a, p.i2, before);
    }
    assert forall i, k :: 0 <= i < a.Length0 && 0 <= k < a.Length1 ==> a[i, k] == SplicedCell(g, a.Length1, p, i, k);
    assert forall i :: 0 <= i < a.Length0 ==> Grid(a)[i] == Spliced(g, a.Length1, p)[i];
  }

  // ---------------------------------------------------------------------
  // Where the ERA5 days go

  predicate ValidSteps(steps: seq<Calendar.Date>) {
    forall i :: 0 <= i < |steps| ==> Calendar.ValidDate(steps[i])
  }

  predicate ValidDays(days: seq<DailyValue>) {
    forall k :: 0 <= k < |days| ==> Calendar.ValidDate(days[k].day)
  }

  const BroadcastError: string := "could not broadcast input array"

  /** numpy's negative index: `-1` is the last step. */
  function PyIndex(i: int, n: int): (r: int)
    requires -n <= i < n
    ensures 0 <= r < n && (i >= 0 ==> r == i)
  {
    if i < 0 then i + n else i
  }

  function ColumnOf(g: seq<seq<real>>, n: int, k: int): (r: seq<real>)
    requires Rect(g, n) && 0 <= k < n
    ensures |r| == |g| && forall i :: 0 <= i < |g| ==> r[i] == g[i][k]
  {
    seq(|g|, i requires 0 <= i < |g| => g[i][k])
  }

  /** The forecast is issued the month ERA5 covers, so its first step is
      the second day: the first ERA5 day has no step and the block starts
      at step 0 with the second ERA5 day. */
  predicate SameMonthIssue(steps: seq<Calendar.Date>, days: seq<DailyValue>)
    requires |steps| > 0 && |days| > 0
  {
    steps[0].month >= days[0].day.month
  }

  /** The block's last step: the step dated like the last ERA5 day (step 0
      when there is none). */
  function LastStep(steps: seq<Calendar.Date>, days: seq<DailyValue>): (r: int)
    requires |steps| > 0 && |days| > 0 && ValidSteps(steps) && ValidDays(days)
    ensures 0 <= r < |steps|
  {
    Numeric.ArgMaxEq(DayNumbers(steps), Calendar.DayNumber(days[|days| - 1].day))
  }

  /** The block's first step for a forecast issued the month before: the
      step dated like the first ERA5 day (step 0 when there is none). */
  function FirstStep(steps: seq<Calendar.Date>, days: seq<DailyValue>): (r: int)
    requires |steps| > 0 && |days| > 0 && ValidSteps(steps) && ValidDays(days)
    ensures 0 <= r < |steps|
  {
    Numeric.ArgMaxEq(DayNumbers(steps), Calendar.DayNumber(days[0].day))
  }

  function Checked(p: Plan, m: int, n: int): (r: Result<Plan>)
    requires 0 <= p.i1 < n && 0 <= p.i2 < n
    ensures r.Ok? <==> FillOk(p.fill, m, Width(p.i1, p.i2))
    ensures r.Ok? ==> r.value == p && PlanFits(p, m, n)
  {
    if FillOk(p.fill, m, Width(p.i1, p.i2)) then Ok(p) else Err(BroadcastError)
  }

  /** The intended value of an accumulated variable across a block that
      starts after step 0: each member's accumulation before the block plus
      the ERA5 running total. */
  function PerMemberSums(g: seq<seq<real>>, n: int, i1: int, es: seq<real>): (f: Fill)
    requires Rect(g, n) && -n <= i1 - 1 < n
    ensures f.PerMember? && |f.rows| == |g|
    ensures forall i :: 0 <= i < |g| ==> |f.rows[i]| == |es|
    ensures forall i, j :: 0 <= i < |g| && 0 <= j < |es| ==>
      f.rows[i][j] == g[i][PyIndex(i1 - 1, n)] + Numeric.CumSum(es)[j]
  {
    var before := ColumnOf(g, n, PyIndex(i1 - 1, n));
    var c := Numeric.CumSum(es);
    PerMember(seq(|g|, i requires 0 <= i < |g| => seq(|es|, j requires 0 <= j < |es| => before[i] + c[j])))
  }

  /** The same value as the scripts write it: a member column plus the ERA5
      running total as two 1-D arrays, which numpy pairs by position. */
  function BroadcastSums(g: seq<seq<real>>, n: int, i1: int, es: seq<real>, asColumn: bool): (r: Option<Fill>)
    requires Rect(g, n) && -n <= i1 - 1 < n
    ensures r.Some? <==> |g| == |es| || |g| == 1 || |es| == 1
  {
    var sums := AddBroadcast(ColumnOf(g, n, PyIndex(i1 - 1, n)), Numeric.CumSum(es));
    if sums.Some? then Some(Shape(sums.value, asColumn)) else None
  }

  /** Where and what to write. `g` is the forecast grid (members x steps),
      `asColumn` the single-day `[:, None]` special case of one copy of the
      script. A forecast issued the month ERA5 covers replaces steps
      `0 .. LastStep` with the ERA5 days after the first (their running
      total for "sum"); one issued before replaces `FirstStep .. LastStep`
      with all ERA5 days (for "sum", added to each member's accumulation
      before the block). "Sum" variables rebase the steps after the block. */
  function SplicePlan(steps: seq<Calendar.Date>, days: seq<DailyValue>, agg: Aggregation, g: seq<seq<real>>, asColumn: bool): (r: Result<Plan>)
    requires |steps| > 0 && |days| > 0 && ValidSteps(steps) && ValidDays(days) && Rect(g, |steps|)
    ensures r.Ok? ==> PlanFits(r.value, |g|, |steps|) && r.value.i2 == LastStep(steps, days)
    ensures r.Ok? ==> (r.value.rebase <==> agg == Sum)
    ensures r.Ok? && SameMonthIssue(steps, days) ==> r.value.i1 == 0
    ensures r.Ok? && !SameMonthIssue(steps, days) ==> r.value.i1 == FirstStep(steps, days)
  {
    var same := SameMonthIssue(steps, days);
    PlanAt(days, agg, g, |steps|, asColumn, same, if same then 0 else FirstStep(steps, days), LastStep(steps, days))
  }

  /** `SplicePlan` once the block's ends are known. */
  function PlanAt(days: seq<DailyValue>, agg: Aggregation, g: seq<seq<real>>, n: int, asColumn: bool, same: bool, i1: int, i2: int): (r: Result<Plan>)
    requires |days| > 0 && Rect(g, n) && 0 <= i1 < n && 0 <= i2 < n
    ensures r.Ok? ==> PlanFits(r.value, |g|, n) && r.value.i1 == i1 && r.value.i2 == i2
    ensures r.Ok? ==> (r.value.rebase <==> agg == Sum)
  {
    var es := Values(days);
    var single := asColumn && |days| == 1;
    var f := if same then SameMonthFill(es, agg, single) else EarlierFill(g, n, i1, es, agg, single);
    Checked(Plan(i1, i2, f, agg == Sum), |g|, n)
  }

  /** The fill for a forecast issued the month ERA5 covers: the ERA5 days
      after the first, or their running total. */
  function SameMonthFill(es: seq<real>, agg: Aggregation, single: bool): (f: Fill)
    requires |es| > 0
    ensures !single ==> f.Row?
    ensures (f.Row? || f.Column?) && f.xs == if agg == Sum then Numeric.CumSum(es)[1..] else es[1..]
  {
    Shape(if agg == Sum then Numeric.CumSum(es)[1..] else es[1..], single)
  }

  /** The fill for a forecast issued the month before. */
  function EarlierFill(g: seq<seq<real>>, n: int, i1: int, es: seq<real>, agg: Aggregation, single: bool): (f: Fill)
    requires Rect(g, n) && -n <= i1 - 1 < n
    ensures agg == Sum ==> f == PerMemberSums(g, n, i1, es)
    ensures agg == Mean ==> f == Shape(es, single)
  {
    if agg == Sum then PerMemberSums(g, n, i1, es) else Shape(es, single)
  }

  /** The plan as the scripts compute it, with the broadcast sum for a
      forecast issued the month before. */
  function SplicePlanAsWritten(steps: seq<Calendar.Date>, days: seq<DailyValue>, agg: Aggregation, g: seq<seq<real>>, asColumn: bool): (r: Result<Plan>)
    requires |steps| > 0 && |days| > 0 && ValidSteps(steps) && ValidDays(days) && Rect(g, |steps|)
    ensures agg == Mean || SameMonthIssue(steps, days) ==> r == SplicePlan(steps, days, agg, g, asColumn)
    ensures agg == Sum && !SameMonthIssue(steps, days) && r.Ok? ==> |g| == |days| || |g| == 1 || |days| == 1
    ensures r.Ok? ==> PlanFits(r.value, |g|, |steps|) && r.value.i2 == LastStep(steps, days)
    ensures r.Ok? ==> (r.value.rebase <==> agg == Sum)
  {
    if agg == Sum && !SameMonthIssue(steps, days) then
      var i1 := FirstStep(steps, days);
      var f := BroadcastSums(g, |steps|, i1, Values(days), asColumn && |days| == 1);
      if f.None? then Err(BroadcastError)
      else Checked(Plan(i1, LastStep(steps, days), f.value, true), |g|, |steps|)
    else SplicePlan(steps, days, agg, g, asColumn)
  }

  // ---------------------------------------------------------------------
  // What the splice achieves

  predicate Ascending(steps: seq<Calendar.Date>)
    requires ValidSteps(steps)
  {
    forall i, j :: 0 <= i < j < |steps| ==> Calendar.DayNumber(steps[i]) < Calendar.DayNumber(steps[j])
  }

  /** ERA5 days `k0 ..` sit on consecutive steps from `j0` on. */
  predicate Aligned(steps: seq<Calendar.Date>, days: seq<DailyValue>, j0: int, k0: int)
    requires ValidSteps(steps) && ValidDays(days)
  {
    0 <= j0 && 0 <= k0 <= |days| && j0 + |days| - k0 <= |steps|
    && forall k :: k0 <= k < |days| ==> Calendar.DayNumber(steps[j0 + k - k0]) == Calendar.DayNumber(days[k].day)
  }

  /** A forecast issued the month ERA5 covers, with the ERA5 days after the
      first on its first steps: the splice succeeds and step `k` of the
      block holds ERA5's own value for that date ("mean"), or ERA5's total
      from the first of the month through that date ("sum"). */
  lemma SameMonthSplice(steps: seq<Calendar.Date>, days: seq<DailyValue>, agg: Aggregation, g: seq<seq<real>>, asColumn: bool)
    requires |steps| > 0 && |days| >= 2 && ValidSteps(steps) && ValidDays(days) && Rect(g, |steps|)
    requires Ascending(steps) && Aligned(steps, days, 0, 1) && SameMonthIssue(steps, days)
    ensures SplicePlan(steps, days, agg, g, asColumn).Ok?
    ensures SplicePlan(steps, days, agg, g, asColumn).value.i2 == |days| - 2
    ensures forall i, k :: 0 <= i < |g| && 0 <= k < |days| - 1 ==>
      Spliced(g, |steps|, SplicePlan(steps, days, agg, g, asColumn).value)[i][k]
        == (if agg == Mean then days[k + 1].value else Numeric.Sum(Values(days)[..k + 2]))
  {
    SameMonthBlock(steps, days);
    SameMonthCells(steps, days, agg, g, asColumn);
  }

  /** `SameMonthSplice` from where the block ends. */
  lemma SameMonthCells(steps: seq<Calendar.Date>, days: seq<DailyValue>, agg: Aggregation, g: seq<seq<real>>, asColumn: bool)
    requires |steps| > 0 && |days| >= 2 && ValidSteps(steps) && ValidDays(days) && Rect(g, |steps|)
    requires SameMonthIssue(steps, days) && LastStep(steps, days) == |days| - 2
    ensures SplicePlan(steps, days, agg, g, asColumn).Ok?
    ensures SplicePlan(steps, days, agg, g, asColumn).value.i2 == |days| - 2
    ensures forall i, k :: 0 <= i < |g| && 0 <= k < |days| - 1 ==>
      Spliced(g, |steps|, SplicePlan(steps, days, agg, g, asColumn).value)[i][k]
        == (if agg == Mean then days[k + 1].value else Numeric.Sum(Values(days)[..k + 2]))
  {
    var es := Values(days);
    SameMonthPlan(steps, days, agg, g, asColumn);
    var p := SplicePlan(steps, days, agg, g, asColumn).value;
    var xs := p.fill.xs;
    RowBlock(g, |steps|, 0, xs, p);
    if agg == Sum {
      forall k | 0 <= k < |days| - 1
        ensures xs[k] == Numeric.Sum(es[..k + 2])
      {
        assert xs[k] == Numeric.CumSum(es)[k + 1];
      }
    }
  }

  lemma SameMonthPlan(steps: seq<Calendar.Date>, days: seq<DailyValue>, agg: Aggregation, g: seq<seq<real>>, asColumn: bool)
    requires |steps| > 0 && |days| >= 2 && ValidSteps(steps) && ValidDays(days) && Rect(g, |steps|)
    requires SameMonthIssue(steps, days) && LastStep(steps, days) == |days| - 2
    ensures SplicePlan(steps, days, agg, g, asColumn).Ok?
    ensures SplicePlan(steps, days, agg, g, asColumn).value.fill == SameMonthFill(Values(days), agg, false)
  {
    assert Width(0, |days| - 2) == |days| - 1;
  }

  /** A block cell holds the fill. */
  lemma SplicedInBlock(g: seq<seq<real>>, n: int, p: Plan, i: int, k: int)
    requires Rect(g, n) && PlanFits(p, |g|, n) && 0 <= i < |g| && p.i1 <= k <= p.i2
    ensures Spliced(g, n, p)[i][k] == FillCell(p.fill, |g|, Width(p.i1, p.i2), i, k - p.i1)
  {
  }

  /** Where the block ends for a forecast issued the month ERA5 covers. */
  lemma SameMonthBlock(steps: seq<Calendar.Date>, days: seq<DailyValue>)
    requires |steps| > 0 && |days| >= 2 && ValidSteps(steps) && ValidDays(days)
    requires Ascending(steps) && Aligned(steps, days, 0, 1)
    ensures LastStep(steps, days) == |days| - 2
  {
    var ts := DayNumbers(steps);
    var last := |days| - 1;
    assert ts[last - 1] == Calendar.DayNumber(days[last].day);
    Numeric.ArgMaxEqAscending(ts, last - 1);
  }

  /** Where the block goes for a forecast issued the month before, with
      all ERA5 days on consecutive steps from `j0`. */
  lemma EarlierMonthBlock(steps: seq<Calendar.Date>, days: seq<DailyValue>, j0: int)
    requires |steps| > 0 && |days| > 0 && ValidSteps(steps) && ValidDays(days)
    requires Ascending(steps) && Aligned(steps, days, j0, 0) && !SameMonthIssue(steps, days)
    ensures j0 >= 1 && FirstStep(steps, days) == j0 && LastStep(steps, days) == j0 + |days| - 1
  {
    var ts := DayNumbers(steps);
    var last := |days| - 1;
    assert ts[j0] == Calendar.DayNumber(days[0].day);
    assert ts[j0 + last] == Calendar.DayNumber(days[last].day);
    Numeric.ArgMaxEqAscending(ts, j0);
    Numeric.ArgMaxEqAscending(ts, j0 + last);
    if j0 == 0 {
      Calendar.DayNumberInjective(steps[0], days[0].day);
    }
  }

  /** A forecast issued the month before, with all ERA5 days on
      consecutive steps from `j0`: the splice succeeds, starts at `j0`,
      and step `j0 + k` holds ERA5's value for that date ("mean"), or the
      member's accumulation before the block plus ERA5's total through
      that date ("sum"). */
  lemma EarlierMonthSplice(steps: seq<Calendar.Date>, days: seq<DailyValue>, agg: Aggregation, g: seq<seq<real>>, asColumn: bool, j0: int)
    requires |steps| > 0 && |days| >= 2 && ValidSteps(steps) && ValidDays(days) && Rect(g, |steps|)
    requires Ascending(steps) && Aligned(steps, days, j0, 0) && !SameMonthIssue(steps, days)
    ensures j0 >= 1
    ensures SplicePlan(steps, days, agg, g, asColumn).Ok?
    ensures SplicePlan(steps, days, agg, g, asColumn).value.i1 == j0
    ensures SplicePlan(steps, days, agg, g, asColumn).value.i2 == j0 + |days| - 1
    ensures forall i, k :: 0 <= i < |g| && j0 <= k < j0 + |days| ==>
      Spliced(g, |steps|, SplicePlan(steps, days, agg, g, asColumn).value)[i][k]
        == (if agg == Mean then days[k - j0].value else g[i][j0 - 1] + Numeric.Sum(Values(days)[..k - j0 + 1]))
  {
    EarlierMonthBlock(steps, days, j0);
    EarlierMonthCells(steps, days, agg, g, asColumn, j0);
  }

  /** `EarlierMonthSplice` from where the block goes. */
  lemma EarlierMonthCells(steps: seq<Calendar.Date>, days: seq<DailyValue>, agg: Aggregation, g: seq<seq<real>>, asColumn: bool, j0: int)
    requires |steps| > 0 && |days| >= 2 && ValidSteps(steps) && ValidDays(days) && Rect(g, |steps|)
    requires !SameMonthIssue(steps, days) && j0 >= 1
    requires FirstStep(steps, days) == j0 && LastStep(steps, days) == j0 + |days| - 1
    ensures SplicePlan(steps, days, agg, g, asColumn).Ok?
    ensures SplicePlan(steps, days, agg, g, asColumn).value.i1 == j0
    ensures SplicePlan(steps, days, agg, g, asColumn).value.i2 == j0 + |days| - 1
    ensures forall i, k :: 0 <= i < |g| && j0 <= k < j0 + |days| ==>
      Spliced(g, |steps|, SplicePlan(steps, days, agg, g, asColumn).value)[i][k]
        == (if agg == Mean then days[k - j0].value else g[i][j0 - 1] + Numeric.Sum(Values(days)[..k - j0 + 1]))
  {
    EarlierMonthPlan(steps, days, agg, g, asColumn, j0);
    var p := SplicePlan(steps, days, agg, g, asColumn).value;
    if agg == Sum {
      PerMemberBlock(g, |steps|, j0, Values(days), p);
    } else {
      RowBlock(g, |steps|, j0, Values(days), p);
    }
  }

  /** A block of one row per member, each the member's value before the
      block plus the running total. */
  lemma PerMemberBlock(g: seq<seq<real>>, n: int, j0: int, es: seq<real>, p: Plan)
    requires Rect(g, n) && 1 <= j0 && |es| >= 1 && j0 + |es| <= n
    requires p.i1 == j0 && p.i2 == j0 + |es| - 1 && p.fill == PerMemberSums(g, n, j0, es)
    ensures PlanFits(p, |g|, n)
    ensures forall i, k :: 0 <= i < |g| && j0 <= k < j0 + |es| ==>
      Spliced(g, n, p)[i][k] == g[i][j0 - 1] + Numeric.Sum(es[..k - j0 + 1])
  {
    var f := p.fill;
    assert Width(j0, j0 + |es| - 1) == |es|;
    forall i, k | 0 <= i < |g| && j0 <= k < j0 + |es|
      ensures Spliced(g, n, p)[i][k] == g[i][j0 - 1] + Numeric.Sum(es[..k - j0 + 1])
    {
      SplicedInBlock(g, n, p, i, k);
      assert FillCell(f, |g|, |es|, i, k - j0) == g[i][j0 - 1] + Numeric.CumSum(es)[k - j0];
    }
  }

  /** A block filled with one value per step. */
  lemma RowBlock(g: seq<seq<real>>, n: int, j0: int, es: seq<real>, p: Plan)
    requires Rect(g, n) && 0 <= j0 && |es| >= 1 && j0 + |es| <= n
    requires p.i1 == j0 && p.i2 == j0 + |es| - 1 && p.fill == Row(es)
    ensures PlanFits(p, |g|, n)
    ensures forall i, k :: 0 <= i < |g| && j0 <= k < j0 + |es| ==> Spliced(g, n, p)[i][k] == es[k - j0]
  {
    assert Width(j0, j0 + |es| - 1) == |es|;
    forall i, k | 0 <= i < |g| && j0 <= k < j0 + |es|
      ensures Spliced(g, n, p)[i][k] == es[k - j0]
    {
      SplicedInBlock(g, n, p, i, k);
    }
  }

  lemma EarlierMonthPlan(steps: seq<Calendar.Date>, days: seq<DailyValue>, agg: Aggregation, g: seq<seq<real>>, asColumn: bool, j0: int)
    requires |steps| > 0 && |days| >= 2 && ValidSteps(steps) && ValidDays(days) && Rect(g, |steps|)
    requires !SameMonthIssue(steps, days) && j0 >= 1
    requires FirstStep(steps, days) == j0 && LastStep(steps, days) == j0 + |days| - 1
    ensures SplicePlan(steps, days, agg, g, asColumn).Ok?
    ensures SplicePlan(steps, days, agg, g, asColumn).value.i1 == j0
    ensures SplicePlan(steps, days, agg, g, asColumn).value.fill == EarlierFill(g, |steps|, j0, Values(days), agg, false)
  {
    EarlierPlanAt(days, agg, g, |steps|, asColumn, j0);
  }

  lemma EarlierPlanAt(days: seq<DailyValue>, agg: Aggregation, g: seq<seq<real>>, n: int, asColumn: bool, j0: int)
    requires |days| >= 2 && Rect(g, n) && 1 <= j0 && j0 + |days| <= n
    ensures PlanAt(days, agg, g, n, asColumn, false, j0, j0 + |days| - 1) ==
      Ok(Plan(j0, j0 + |days| - 1, EarlierFill(g, n, j0, Values(days), agg, false), agg == Sum))
  {
    assert Width(j0, j0 + |days| - 1) == |days|;
  }

  /** A forecast issued the month ERA5 covers and a single ERA5 day (the
      first, which precedes every step): nothing broadcasts into the block
      and the job stops. */
  lemma SameMonthSingleDayStops(steps: seq<Calendar.Date>, days: seq<DailyValue>, agg: Aggregation, g: seq<seq<real>>, asColumn: bool)
    requires |steps| > 0 && |days| == 1 && ValidSteps(steps) && ValidDays(days) && Rect(g, |steps|)
    requires SameMonthIssue(steps, days) && |g| > 1
    ensures SplicePlan(steps, days, agg, g, asColumn).Err?
  {
  }

  // ---------------------------------------------------------------------
  // The broadcast sum as written

  /** With several members and several ERA5 days, and as many of neither,
      the broadcast sum of the scripts stops the job where the per-member
      sum splices. */
  lemma BroadcastSumStops(steps: seq<Calendar.Date>, days: seq<DailyValue>, g: seq<seq<real>>, asColumn: bool, j0: int)
    requires |steps| > 0 && |days| >= 2 && ValidSteps(steps) && ValidDays(days) && Rect(g, |steps|)
    requires Ascending(steps) && Aligned(steps, days, j0, 0) && !SameMonthIssue(steps, days)
    requires |g| >= 2 && |g| != |days|
    ensures SplicePlanAsWritten(steps, days, Sum, g, asColumn).Err?
    ensures SplicePlan(steps, days, Sum, g, asColumn).Ok?
  {
    EarlierMonthSplice(steps, days, Sum, g, asColumn, j0);
  }

  /** A forecast issued in November with three steps, the 1st and 2nd of
      December on steps 1 and 2, and two members. */
  const ExampleSteps: seq<Calendar.Date> :=
    [Calendar.Date(2024, 11, 30), Calendar.Date(2024, 12, 1), Calendar.Date(2024, 12, 2)]
  const ExampleDays: seq<DailyValue> :=
    [DailyValue(Calendar.Date(2024, 12, 1), 1.0), DailyValue(Calendar.Date(2024, 12, 2), 2.0)]
  const ExampleGrid: seq<seq<real>> := [[10.0, 10.0, 10.0], [20.0, 20.0, 20.0]]

  lemma ExampleAligned()
    ensures ValidSteps(ExampleSteps) && ValidDays(ExampleDays) && Rect(ExampleGrid, 3)
    ensures Ascending(ExampleSteps) && Aligned(ExampleSteps, ExampleDays, 1, 0)
    ensures !SameMonthIssue(ExampleSteps, ExampleDays)
  {
    var s := ExampleSteps;
    assert ValidSteps(s);
    Calendar.BeforeIsDayOrder(s[0], s[1]);
    Calendar.BeforeIsDayOrder(s[1], s[2]);
  }

  /** The example as the scripts compute it: the 2nd of December of member
      0 gets member 1's accumulation (23) where the per-member sum gives
      member 0's own (13). */
  lemma BroadcastSumMixesMembers()
    ensures ValidSteps(ExampleSteps) && ValidDays(ExampleDays) && Rect(ExampleGrid, 3)
    ensures SplicePlanAsWritten(ExampleSteps, ExampleDays, Sum, ExampleGrid, false).Ok?
    ensures SplicePlan(ExampleSteps, ExampleDays, Sum, ExampleGrid, false).Ok?
    ensures Spliced(ExampleGrid, 3, SplicePlanAsWritten(ExampleSteps, ExampleDays, Sum, ExampleGrid, false).value)[0][2] == 23.0
    ensures Spliced(ExampleGrid, 3, SplicePlan(ExampleSteps, ExampleDays, Sum, ExampleGrid, false).value)[0][2] == 13.0
  {
    ExampleAligned();
    EarlierMonthBlock(ExampleSteps, ExampleDays, 1);
    EarlierMonthSplice(ExampleSteps, ExampleDays, Sum, ExampleGrid, false, 1);
    ExampleCumSum();
    ExampleBroadcast();
    var w := SplicePlanAsWritten(ExampleSteps, ExampleDays, Sum, ExampleGrid, false);
    SplicedInBlock(ExampleGrid, 3, w.value, 0, 2);
  }

  lemma ExampleCumSum()
    ensures Numeric.CumSum(Values(ExampleDays)) == [1.0, 3.0]
    ensures Numeric.Sum(Values(ExampleDays)[..2]) == 3.0
  {
    var es := Values(ExampleDays);
    assert es == [1.0, 2.0];
    assert es[..1][..0] == [];
    assert es[..2][..1] == es[..1];
    assert Numeric.Sum(es[..1]) == Numeric.Sum(es[..1][..0]) + es[..1][0] == 1.0;
    assert Numeric.Sum(es[..2]) == Numeric.Sum(es[..2][..1]) + es[..2][1] == 3.0;
    var c := Numeric.CumSum(es);
    assert c[0] == 1.0 && c[1] == 3.0;
  }

  lemma ExampleBroadcast()
    ensures BroadcastSums(ExampleGrid, 3, 1, Values(ExampleDays), false) == Some(Row([11.0, 23.0]))
  {
    ExampleCumSum();
    var col := ColumnOf(ExampleGrid, 3, 0);
    assert col == [10.0, 20.0];
    var sums := AddBroadcast(col, [1.0, 3.0]);
    assert |sums.value| == 2 && sums.value[0] == 11.0 && sums.value[1] == 23.0;
    assert sums.value == [11.0, 23.0];
  }
}
