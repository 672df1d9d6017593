/** The yearly quality control of the daily water-temperature store and the
    extraction of one freeze-up date (FUD) per winter, as run every June by
    `prepro/yearly_preprocess.py` and its older copy
    `preprocess/yearly_preprocess.py`.  The two copies differ only in the
    derivative threshold and in the time unit of the derivatives; both are
    captured by `QcConfig`.

    Missing values (NaN) are `None`.  Every comparison with a missing value
    is false, as in numpy, so a missing derivative never triggers a mask.
    The library statistics (derivatives, day-of-year means and standard
    deviations, interpolation, the quarterly resampling) are inputs. */
module YearlyQc {
  import opened Wrappers
  import Calendar
  import Numeric

  /** Threshold on |dT/dt| and |d2T/dt2|, and the derivative unit in days
      (`datetime_unit="2D"` or `"D"`). */
  datatype QcConfig = QcConfig(threshold: real, unitDays: int)

  const PreproConfig: QcConfig := QcConfig(0.1, 2)
  const PreprocessConfig: QcConfig := QcConfig(0.05, 1)

  const JuneMonth: int := 6
  const MonthError: string := "This script should run in June, something went wrong."
  /** A stuck run is only suspicious above this temperature. */
  const StuckMinTemperature: real := 2.0
  /** A run of flagged samples is removed when `last - first >= 6`. */
  const StuckMinSpan: int := 6
  const HighFactor: real := 5.0
  const WinterMaxTemperature: real := 2.0
  /** Winter means are moved from the quarter start to its middle. */
  const WinterShiftDays: int := 45
  const FreezingThreshold: real := 0.75
  /** Day-of-year values below this belong to the following calendar year. */
  const WrapBelow: int := 300

  // ---------------------------------------------------------------------
  // Comparisons with numpy's treatment of NaN

  function Abs(x: real): (r: real)
    ensures r >= 0.0 && (r == x || r == -x)
  {
    if x < 0.0 then -x else x
  }

  predicate Above(x: Option<real>, b: real) {
    x.Some? && x.value > b
  }

  predicate AbsBelow(x: Option<real>, b: real) {
    x.Some? && Abs(x.value) < b
  }

  predicate AbsAbove(x: Option<real>, b: real) {
    x.Some? && Abs(x.value) > b
  }

  /** Element `i` of a library result, missing when the result is shorter. */
  function At(s: seq<Option<real>>, i: int): Option<real> {
    if 0 <= i < |s| then s[i] else None
  }

  // ---------------------------------------------------------------------
  // Stuck-sensor runs

  /** `Tw_const`: |dT/dt| below the threshold and T above 2 degrees. */
  function StuckFlags(t: seq<Option<real>>, rate: seq<Option<real>>, threshold: real): (c: seq<bool>)
    ensures |c| == |t|
  {
    seq(|t|, i requires 0 <= i < |t| => AbsBelow(At(rate, i), threshold) && Above(t[i], StuckMinTemperature))
  }

  /** Last index of the run of flagged samples that continues from `i`. */
  function RunEnd(c: seq<bool>, i: nat): (e: nat)
    requires i < |c|
    ensures i <= e < |c|
    ensures forall k :: i < k <= e ==> c[k]
    ensures e + 1 == |c| || !c[e + 1]
    decreases |c| - i
  {
    if i + 1 < |c| && c[i + 1] then RunEnd(c, i + 1) else i
  }

  /** First index of the run of flagged samples that reaches `i`. */
  function RunStart(c: seq<bool>, i: nat): (s: nat)
    requires i < |c|
    ensures s <= i
    ensures forall k :: s <= k < i ==> c[k]
    ensures s == 0 || !c[s - 1]
    decreases i
  {
    if i > 0 && c[i - 1] then RunStart(c, i - 1) else i
  }

  /** Sample `i` lies in a maximal run (one `groupby` group of the
      cumulative count of unflagged samples) whose index span is >= 6. */
  predicate InLongRun(c: seq<bool>, i: nat)
    requires i < |c|
  {
    c[i] && RunEnd(c, i) - RunStart(c, i) >= StuckMinSpan
  }

  predicate AllFlagged(c: seq<bool>, lo: int, hi: int)
    requires 0 <= lo && hi < |c|
  {
    forall k :: lo <= k <= hi ==> c[k]
  }

  lemma {:induction false} RunEndReaches(c: seq<bool>, i: nat, k: nat)
    requires i <= k < |c|
    requires forall m :: i < m <= k ==> c[m]
    ensures RunEnd(c, i) >= k
    decreases k - i
  {
    if i < k {
      RunEndReaches(c, i + 1, k);
    }
  }

  lemma {:induction false} RunStartReaches(c: seq<bool>, k: nat, i: nat)
    requires k <= i < |c|
    requires forall m :: k <= m < i ==> c[m]
    ensures RunStart(c, i) <= k
    decreases i - k
  {
    if k < i {
      RunStartReaches(c, k, i - 1);
    }
  }

  /** Every sample of a maximal run `[lo..hi]` sees the same run. */
  lemma {:induction false} RunBounds(c: seq<bool>, lo: nat, hi: nat, m: nat)
    requires lo <= m <= hi < |c|
    requires forall k :: lo <= k <= hi ==> c[k]
    requires lo == 0 || !c[lo - 1]
    requires hi + 1 == |c| || !c[hi + 1]
    ensures RunStart(c, m) == lo && RunEnd(c, m) == hi
  {
    RunEndReaches(c, m, hi);
    RunStartReaches(c, lo, m);
  }

  /** Seven consecutive flagged samples start at `lo`. */
  predicate SevenFrom(c: seq<bool>, lo: int) {
    0 <= lo && lo + StuckMinSpan < |c| && AllFlagged(c, lo, lo + StuckMinSpan)
  }

  /** The run rule said without runs: a sample is removed exactly when it
      belongs to seven consecutive flagged samples. */
  lemma LongRunIsSevenInARow(c: seq<bool>, i: nat)
    requires i < |c|
    ensures InLongRun(c, i) <==>
      exists lo :: lo <= i <= lo + StuckMinSpan && SevenFrom(c, lo)
  {
    var s, e := RunStart(c, i), RunEnd(c, i);
    if InLongRun(c, i) {
      var lo := if i - StuckMinSpan >= s then i - StuckMinSpan else s;
      assert SevenFrom(c, lo);
    }
    if lo :| lo <= i <= lo + StuckMinSpan && SevenFrom(c, lo) {
      RunEndReaches(c, i, lo + StuckMinSpan);
      RunStartReaches(c, lo, i);
    }
  }

  /** The series after the run loop: samples of long runs become missing,
      nothing else changes. */
  function StuckMasked(t: seq<Option<real>>, c: seq<bool>): (r: seq<Option<real>>)
    requires |c| == |t|
    ensures |r| == |t|
  {
    seq(|t|, i requires 0 <= i < |t| => if InLongRun(c, i) then None else t[i])
  }

  /** The run loop, in place: for each maximal run of flagged samples,
      positions `first..last` are set missing when `last - first >= 6`
      (the source's two slice forms cover the same positions). */
  method MaskStuckRuns(a: array<Option<real>>, c: seq<bool>)
    requires a.Length == |c|
    modifies a
    ensures a[..] == StuckMasked(old(a[..]), c)
  {
    ghost var a0 := a[..];
    var i := 0;
    while i < a.Length
      invariant 0 <= i <= a.Length
      invariant 0 < i < a.Length && c[i] ==> !c[i - 1]
      invariant forall k :: 0 <= k < i ==> a[k] == StuckMasked(a0, c)[k]
      invariant forall k :: i <= k < a.Length ==> a[k] == a0[k]
    {
      if !c[i] {
        i := i + 1;
      } else {
        var j := i;
        while j + 1 < a.Length && c[j + 1]
          invariant i <= j < a.Length
          invariant forall k :: i <= k <= j ==> c[k]
        {
          j := j + 1;
        }
        forall m | i <= m <= j
          ensures RunStart(c, m) == i && RunEnd(c, m) == j
        {
          RunBounds(c, i, j, m);
        }
        if j - i >= StuckMinSpan {
          var k := i;
          while k <= j
            invariant i <= k <= j + 1
            invariant forall m :: 0 <= m < i ==> a[m] == StuckMasked(a0, c)[m]
            invariant forall m :: i <= m < k ==> a[m] == None
            invariant forall m :: k <= m < a.Length ==> a[m] == a0[m]
          {
            a[k] := None;
            k := k + 1;
          }
        }
        i := j + 1;
      }
    }
    assert a[..] == StuckMasked(a0, c);
  }

  // ---------------------------------------------------------------------
  // Threshold masks and the floor

  /** `x[mask] = np.nan` as a value: flagged positions become missing. */
  function Masked(s: seq<Option<real>>, m: seq<bool>): (r: seq<Option<real>>)
    ensures |r| == |s|
  {
    seq(|s|, i requires 0 <= i < |s| => if i < |m| && m[i] then None else s[i])
  }

  /** A mask only adds missing values: every value kept is unchanged. */
  lemma MaskedOnlyRemoves(s: seq<Option<real>>, m: seq<bool>, i: int)
    requires 0 <= i < |s|
    ensures Masked(s, m)[i].Some? <==> s[i].Some? && !(i < |m| && m[i])
    ensures Masked(s, m)[i].Some? ==> Masked(s, m)[i] == s[i]
  {
  }

  method ApplyMask(a: array<Option<real>>, m: seq<bool>)
    modifies a
    ensures a[..] == Masked(old(a[..]), m)
  {
    ghost var a0 := a[..];
    for i := 0 to a.Length
      invariant forall k :: 0 <= k < i ==> a[k] == Masked(a0, m)[k]
      invariant forall k :: i <= k < a.Length ==> a[k] == a0[k]
    {
      if i < |m| && m[i] {
        a[i] := None;
      }
    }
    assert a[..] == Masked(a0, m);
  }

  /** `x[x < 0] = 0`. */
  function Floored(s: seq<Option<real>>): (r: seq<Option<real>>)
    ensures |r| == |s|
    ensures forall i :: 0 <= i < |s| ==> (r[i].None? <==> s[i].None?)
    ensures forall i :: 0 <= i < |s| && r[i].Some? ==> r[i].value >= 0.0
    ensures forall i :: 0 <= i < |s| && s[i].Some? && s[i].value >= 0.0 ==> r[i] == s[i]
  {
    seq(|s|, i requires 0 <= i < |s| => if s[i].Some? && s[i].value < 0.0 then Some(0.0) else s[i])
  }

  method FloorAtZero(a: array<Option<real>>)
    modifies a
    ensures a[..] == Floored(old(a[..]))
  {
    ghost var a0 := a[..];
    for i := 0 to a.Length
      invariant forall k :: 0 <= k < i ==> a[k] == Floored(a0)[k]
      invariant forall k :: i <= k < a.Length ==> a[k] == a0[k]
    {
      if a[i].Some? && a[i].value < 0.0 {
        a[i] := Some(0.0);
      }
    }
    assert a[..] == Floored(a0);
  }

  /** `jump`: |d2T| above the given bound (mean |d2T| + std d2T). */
  function JumpFlags(d2: seq<Option<real>>, bound: real): (m: seq<bool>)
    ensures |m| == |d2|
    ensures forall i :: 0 <= i < |d2| ==> (m[i] <==> AbsAbove(d2[i], bound))
  {
    seq(|d2|, i requires 0 <= i < |d2| => AbsAbove(d2[i], bound))
  }

  /** `high`: |T - mean of its day of year| above `5 * meanStd`. */
  function HighFlags(t: seq<Option<real>>, dayMean: seq<Option<real>>, meanStd: real): (m: seq<bool>)
    ensures |m| == |t|
  {
    seq(|t|, i requires 0 <= i < |t| =>
      t[i].Some? && At(dayMean, i).Some? && Abs(t[i].value - At(dayMean, i).value) > HighFactor * meanStd)
  }

  function AboveFlags(s: seq<Option<real>>, b: real): (m: seq<bool>)
    ensures |m| == |s|
  {
    seq(|s|, i requires 0 <= i < |s| => Above(s[i], b))
  }

  function AbsAboveFlags(s: seq<Option<real>>, b: real): (m: seq<bool>)
    ensures |m| == |s|
  {
    seq(|s|, i requires 0 <= i < |s| => AbsAbove(s[i], b))
  }

  // ---------------------------------------------------------------------
  // The cleaned series

  /** The statistics and numerical routines the scripts take from xarray. */
  datatype QcLibrary = QcLibrary(
    /** `differentiate("Date")` in units of the given number of days. */
    derivative: (seq<Calendar.Date>, seq<Option<real>>, int) -> seq<Option<real>>,
    /** `mean |d2T| + std d2T` with NaN skipped. */
    jumpBound: seq<Option<real>> -> real,
    /** For each sample, the mean over all samples of its day of year. */
    dayOfYearMean: (seq<Calendar.Date>, seq<Option<real>>) -> seq<Option<real>>,
    /** The mean over days of year of the per-day-of-year standard deviation. */
    meanDayOfYearStd: (seq<Calendar.Date>, seq<Option<real>>) -> real,
    /** `interpolate_na` with a 7-day `max_gap`. */
    interpolate: (seq<Calendar.Date>, seq<Option<real>>) -> seq<Option<real>>,
    /** `resample(Date="QS-DEC").mean()`: quarter start day number and mean. */
    quarterlyMeans: (seq<Calendar.Date>, seq<Option<real>>) -> seq<(int, Option<real>)>,
    /** `dropna` followed by `interp` back onto the series' dates. */
    offsetInterp: (seq<Calendar.Date>, seq<Option<real>>) -> seq<Option<real>>)

  datatype Daily = Daily(date: Calendar.Date, temp: Option<real>)

  function Dates(days: seq<Daily>): (r: seq<Calendar.Date>)
    ensures |r| == |days| && forall i :: 0 <= i < |days| ==> r[i] == days[i].date
  {
    seq(|days|, i requires 0 <= i < |days| => days[i].date)
  }

  function Temps(days: seq<Daily>): (r: seq<Option<real>>)
    ensures |r| == |days| && forall i :: 0 <= i < |days| ==> r[i] == days[i].temp
  {
    seq(|days|, i requires 0 <= i < |days| => days[i].temp)
  }

  /** `ffill`: a missing value takes the last value before it. */
  function ForwardFill(s: seq<Option<real>>): (r: seq<Option<real>>)
    ensures |r| == |s|
    ensures forall i :: 0 <= i < |s| && s[i].Some? ==> r[i] == s[i]
    ensures forall i :: 0 < i < |s| && s[i].None? ==> r[i] == r[i - 1]
    ensures |s| > 0 && s[0].None? ==> r[0].None?
    decreases |s|
  {
    if s == [] then []
    else
      var init := ForwardFill(s[..|s| - 1]);
      var last := s[|s| - 1];
      init + [if last.Some? || init == [] then last else init[|init| - 1]]
  }

  /** Filling twice fills nothing more. */
  lemma ForwardFillTwice(s: seq<Option<real>>)
    ensures ForwardFill(ForwardFill(s)) == ForwardFill(s)
  {
    forall i | 0 <= i < |s| ensures ForwardFill(ForwardFill(s))[i] == ForwardFill(s)[i] {
      FilledAgree(s, i);
    }
  }

  lemma {:induction false} FilledAgree(s: seq<Option<real>>, i: int)
    requires 0 <= i < |s|
    ensures ForwardFill(ForwardFill(s))[i] == ForwardFill(s)[i]
    decreases i
  {
    var r := ForwardFill(s);
    if r[i].None? && i > 0 {
      assert s[i].None?;
      FilledAgree(s, i - 1);
    }
  }

  /** First and second derivatives, as the two copies compute them. */
  function Rate(config: QcConfig, days: seq<Daily>, lib: QcLibrary): seq<Option<real>> {
    lib.derivative(Dates(days), ForwardFill(Temps(days)), config.unitDays)
  }

  function Curvature(config: QcConfig, days: seq<Daily>, lib: QcLibrary): seq<Option<real>> {
    lib.derivative(Dates(days), Rate(config, days, lib), config.unitDays)
  }

  /** The record with every missing day given the last value before it. */
  function GapsFilled(days: seq<Daily>): (r: seq<Daily>)
    ensures |r| == |days|
  {
    var t := ForwardFill(Temps(days));
    seq(|days|, i requires 0 <= i < |days| => Daily(days[i].date, t[i]))
  }

  /** The derivatives see a missing day as the last value before it: the
      record and its gap-filled copy have the same first and second
      derivatives. */
  lemma DerivativesIgnoreGaps(config: QcConfig, days: seq<Daily>, lib: QcLibrary)
    ensures Rate(config, GapsFilled(days), lib) == Rate(config, days, lib)
    ensures Curvature(config, GapsFilled(days), lib) == Curvature(config, days, lib)
  {
    var f := GapsFilled(days);
    assert Dates(f) == Dates(days);
    assert Temps(f) == ForwardFill(Temps(days));
    ForwardFillTwice(Temps(days));
  }

  /** The series after the stuck-run and jump masks. */
  function Unstuck(config: QcConfig, days: seq<Daily>, lib: QcLibrary): (r: seq<Option<real>>)
    ensures |r| == |days|
  {
    var t := Temps(days);
    var d2 := Curvature(config, days, lib);
    Masked(StuckMasked(t, StuckFlags(t, Rate(config, days, lib), config.threshold)),
           JumpFlags(d2, lib.jumpBound(d2)))
  }

  /** `T_processed` before interpolation: the outlier mask then the floor. */
  function Screened(config: QcConfig, days: seq<Daily>, lib: QcLibrary): (r: seq<Option<real>>)
    ensures |r| == |days|
  {
    var u := Unstuck(config, days, lib);
    var dates := Dates(days);
    Floored(Masked(u, HighFlags(u, lib.dayOfYearMean(dates, u), lib.meanDayOfYearStd(dates, u))))
  }

  /** `T_processed`. */
  function Processed(config: QcConfig, days: seq<Daily>, lib: QcLibrary): seq<Option<real>> {
    lib.interpolate(Dates(days), Screened(config, days, lib))
  }

  /** The masks and floors of `T_processed`, applied in place. */
  method Clean(config: QcConfig, days: seq<Daily>, lib: QcLibrary) returns (processed: seq<Option<real>>)
    ensures processed == Processed(config, days, lib)
  {
    var t := Temps(days);
    var a := new Option<real>[|t|](i requires 0 <= i < |t| => t[i]);
    assert a[..] == t;
    var rate := Rate(config, days, lib);
    var d2 := Curvature(config, days, lib);
    MaskStuckRuns(a, StuckFlags(t, rate, config.threshold));
    ApplyMask(a, JumpFlags(d2, lib.jumpBound(d2)));
    var u := a[..];
    assert u == Unstuck(config, days, lib);
    var dates := Dates(days);
    ApplyMask(a, HighFlags(u, lib.dayOfYearMean(dates, u), lib.meanDayOfYearStd(dates, u)));
    FloorAtZero(a);
    processed := lib.interpolate(dates, a[..]);
  }

  // ---------------------------------------------------------------------
  // The winter offset

  /** `Tw_winter`: the processed series without values above 2 degrees or
      with |dT/dt| or |d2T| above the threshold. */
  function Winter(p: seq<Option<real>>, rate: seq<Option<real>>, d2: seq<Option<real>>, threshold: real): (r: seq<Option<real>>)
    ensures |r| == |p|
  {
    Masked(Masked(Masked(p, AboveFlags(p, WinterMaxTemperature)), AbsAboveFlags(rate, threshold)),
           AbsAboveFlags(d2, threshold))
  }

  /** The samples kept for the winter offset, and only those, are the
      processed values <= 2 whose derivatives do not exceed the threshold
      (a missing derivative excludes nothing). */
  lemma WinterKeeps(p: seq<Option<real>>, rate: seq<Option<real>>, d2: seq<Option<real>>, threshold: real, i: int)
    requires 0 <= i < |p|
    ensures Winter(p, rate, d2, threshold)[i].Some? <==>
      p[i].Some? && p[i].value <= WinterMaxTemperature
      && !AbsAbove(At(rate, i), threshold) && !AbsAbove(At(d2, i), threshold)
    ensures Winter(p, rate, d2, threshold)[i].Some? ==> Winter(p, rate, d2, threshold)[i] == p[i]
  {
    var m1 := Masked(p, AboveFlags(p, WinterMaxTemperature));
    var m2 := Masked(m1, AbsAboveFlags(rate, threshold));
    MaskedOnlyRemoves(p, AboveFlags(p, WinterMaxTemperature), i);
    MaskedOnlyRemoves(m1, AbsAboveFlags(rate, threshold), i);
    MaskedOnlyRemoves(m2, AbsAboveFlags(d2, threshold), i);
  }

  /** The copy `Tw_winter` and its three masks, in place. */
  method WinterSamples(p: seq<Option<real>>, rate: seq<Option<real>>, d2: seq<Option<real>>, threshold: real)
    returns (w: seq<Option<real>>)
    ensures w == Winter(p, rate, d2, threshold)
  {
    var a := new Option<real>[|p|](i requires 0 <= i < |p| => p[i]);
    assert a[..] == p;
    ApplyMask(a, AboveFlags(a[..], WinterMaxTemperature));
    ApplyMask(a, AbsAboveFlags(rate, threshold));
    ApplyMask(a, AbsAboveFlags(d2, threshold));
    w := a[..];
  }

  /** `[0::4]`: every fourth element from the first. */
  function EveryFourth<T>(s: seq<T>): (r: seq<T>)
    ensures |r| == (|s| + 3) / 4
    ensures forall k :: 0 <= k < |r| ==> 4 * k < |s| && r[k] == s[4 * k]
    decreases |s|
  {
    if |s| <= 4 then (if s == [] then [] else [s[0]])
    else
      var rest := EveryFourth(s[4..]);
      assert forall k :: 0 < k < |rest| + 1 ==> ([s[0]] + rest)[k] == s[4..][4 * (k - 1)];
      [s[0]] + rest
  }

  /** The December-quarter means (`[0::4]` of the `QS-DEC` quarters, the
      series starting in a December quarter), each dated 45 days after
      the quarter start. */
  function WinterMeans(quarters: seq<(int, Option<real>)>): (r: seq<(int, Option<real>)>)
    ensures |r| == (|quarters| + 3) / 4
    ensures forall k :: 0 <= k < |r| ==>
      r[k] == (quarters[4 * k].0 + WinterShiftDays, quarters[4 * k].1)
  {
    var kept := EveryFourth(quarters);
    seq(|kept|, k requires 0 <= k < |kept| => (kept[k].0 + WinterShiftDays, kept[k].1))
  }

  function DaysOf(means: seq<(int, Option<real>)>): (r: seq<int>)
    ensures |r| == |means| && forall k :: 0 <= k < |means| ==> r[k] == means[k].0
  {
    seq(|means|, k requires 0 <= k < |means| => means[k].0)
  }

  /** `Tw_winter_mean.sel(Date=y-01-15, method="nearest")`. */
  function WinterValue(means: seq<(int, Option<real>)>, y: int): Option<real>
    requires |means| > 0
  {
    means[Numeric.Nearest(DaysOf(means), Calendar.DayNumber(Calendar.Date(y, 1, 15)))].1
  }

  /** The winter value of `y` is the mean of a quarter starting nearest
      to 15 January of `y`, the later one of two equally near. */
  lemma WinterValueNearest(means: seq<(int, Option<real>)>, y: int)
    requires |means| > 0
    ensures exists k ::
      var t := Calendar.DayNumber(Calendar.Date(y, 1, 15));
      0 <= k < |means| && WinterValue(means, y) == means[k].1 &&
      (forall j :: 0 <= j < |means| ==> Numeric.Dist(means[k].0, t) <= Numeric.Dist(means[j].0, t)) &&
      (forall j :: k < j < |means| ==> Numeric.Dist(means[k].0, t) < Numeric.Dist(means[j].0, t))
  {
    var k := Numeric.Nearest(DaysOf(means), Calendar.DayNumber(Calendar.Date(y, 1, 15)));
    assert DaysOf(means)[k] == means[k].0;
  }

  /** The winter values of the years `yMin .. yMax`, one per year. */
  function Winters(means: seq<(int, Option<real>)>, yMin: int, yMax: int): (r: seq<Option<real>>)
    requires |means| > 0
    ensures |r| == if yMin <= yMax then yMax - yMin + 1 else 0
  {
    seq(if yMin <= yMax then yMax - yMin + 1 else 0, k requires 0 <= k && yMin + k <= yMax => WinterValue(means, yMin + k))
  }

  /** The entry of year `y` is its winter value. */
  lemma WintersAt(means: seq<(int, Option<real>)>, yMin: int, yMax: int, y: int)
    requires |means| > 0 && yMin <= y <= yMax
    ensures Winters(means, yMin, yMax)[y - yMin] == WinterValue(means, y)
  {
  }

  /** The offset of one day once the loop has handled the years
      `yMin .. yEnd - 1`, whose winter values `win` lists: December of
      `y - 1` (for `y != yMin`) and January to April of `y` carry the
      winter value of `y`. */
  function OffsetUpTo(d: Calendar.Date, yMin: int, yEnd: int, win: seq<Option<real>>): Option<real>
    requires yEnd - yMin <= |win|
  {
    if d.month == 12 && yMin < d.year + 1 < yEnd then win[d.year + 1 - yMin]
    else if 1 <= d.month <= 4 && yMin <= d.year < yEnd then win[d.year - yMin]
    else None
  }

  /** `Tw_offset` before `dropna`/`interp`. */
  function Offsets(dates: seq<Calendar.Date>, yMin: int, yMax: int, means: seq<(int, Option<real>)>): (r: seq<Option<real>>)
    requires |means| > 0
    ensures |r| == |dates|
  {
    var win := Winters(means, yMin, yMax);
    seq(|dates|, i requires 0 <= i < |dates| => if yMin <= yMax then OffsetUpTo(dates[i], yMin, yMax + 1, win) else None)
  }

  /** The winter a day belongs to for the offset: December counts towards
      the next year. */
  function Season(d: Calendar.Date): int {
    if d.month == 12 then d.year + 1 else d.year
  }

  /** Days of the same winter share one offset, May to November carry none,
      and a winter month in the range carries the value of its winter. */
  lemma OffsetBySeason(dates: seq<Calendar.Date>, yMin: int, yMax: int, means: seq<(int, Option<real>)>, i: int, j: int)
    requires |means| > 0 && 0 <= i < |dates| && 0 <= j < |dates|
    requires yMin <= dates[i].year <= yMax
    ensures 5 <= dates[i].month <= 11 ==> Offsets(dates, yMin, yMax, means)[i].None?
    ensures (1 <= dates[i].month <= 4 || (dates[i].month == 12 && dates[i].year < yMax)) ==>
      Offsets(dates, yMin, yMax, means)[i] == WinterValue(means, Season(dates[i]))
    ensures dates[i].month == 12 && dates[i].year == yMax ==> Offsets(dates, yMin, yMax, means)[i].None?
    ensures yMin <= dates[j].year <= yMax && Season(dates[i]) == Season(dates[j])
      && (dates[i].month == 12 || 1 <= dates[i].month <= 4) && (dates[j].month == 12 || 1 <= dates[j].month <= 4)
      && Season(dates[i]) <= yMax
      ==> Offsets(dates, yMin, yMax, means)[i] == Offsets(dates, yMin, yMax, means)[j]
  {
    var win := Winters(means, yMin, yMax);
    var off := Offsets(dates, yMin, yMax, means);
    assert off[i] == OffsetUpTo(dates[i], yMin, yMax + 1, win);
    DayOffset(dates[i], yMin, yMax, win);
    if 1 <= dates[i].month <= 4 || (dates[i].month == 12 && dates[i].year < yMax) {
      WintersAt(means, yMin, yMax, Season(dates[i]));
    }
    if yMin <= dates[j].year <= yMax {
      assert off[j] == OffsetUpTo(dates[j], yMin, yMax + 1, win);
      DayOffset(dates[j], yMin, yMax, win);
    }
  }

  /** The offset of one day of the years `yMin .. yMax` once the loop is
      done, by its winter. */
  lemma DayOffset(d: Calendar.Date, yMin: int, yMax: int, win: seq<Option<real>>)
    requires yMin <= d.year <= yMax && |win| == yMax - yMin + 1
    ensures 5 <= d.month <= 11 ==> OffsetUpTo(d, yMin, yMax + 1, win).None?
    ensures d.month == 12 && d.year == yMax ==> OffsetUpTo(d, yMin, yMax + 1, win).None?
    ensures (1 <= d.month <= 4 || (d.month == 12 && d.year < yMax)) ==>
      OffsetUpTo(d, yMin, yMax + 1, win) == win[Season(d) - yMin]
  {
  }

  /** One pass of the offset loop: the two `xr.where` rebinds for year
      `y`, whose winter value is `w`. */
  method AssignYear(a: array<Option<real>>, dates: seq<Calendar.Date>, yMin: int, y: int, w: Option<real>, ghost win: seq<Option<real>>)
    requires a.Length == |dates| && yMin <= y && y - yMin < |win| && w == win[y - yMin]
    requires forall k :: 0 <= k < a.Length ==> a[k] == OffsetUpTo(dates[k], yMin, y, win)
    modifies a
    ensures forall k :: 0 <= k < a.Length ==> a[k] == OffsetUpTo(dates[k], yMin, y + 1, win)
  {
    for i := 0 to a.Length
      invariant forall k :: 0 <= k < i ==> a[k] == OffsetUpTo(dates[k], yMin, y + 1, win)
      invariant forall k :: i <= k < a.Length ==> a[k] == OffsetUpTo(dates[k], yMin, y, win)
    {
      if y != yMin && dates[i].year == y - 1 && dates[i].month == 12 {
        a[i] := w;
      }
      if dates[i].year == y && 1 <= dates[i].month <= 4 {
        a[i] := w;
      }
    }
  }

  /** The offset loop: for each year from `yMin` to `yMax`, the December
      before it (unless it is the first year) and its January to April
      are rebound to the winter value of that year. */
  method AssignOffsets(dates: seq<Calendar.Date>, yMin: int, yMax: int, means: seq<(int, Option<real>)>)
    returns (off: seq<Option<real>>)
    requires |means| > 0 && yMin <= yMax
    ensures off == Offsets(dates, yMin, yMax, means)
  {
    ghost var win := Winters(means, yMin, yMax);
    var a := new Option<real>[|dates|](_ => None);
    var y := yMin;
    while y <= yMax
      invariant yMin <= y <= yMax + 1
      invariant forall k :: 0 <= k < a.Length ==> a[k] == OffsetUpTo(dates[k], yMin, y, win)
    {
      var w := WinterValue(means, y);
      WintersAt(means, yMin, yMax, y);
      AssignYear(a, dates, yMin, y, w, win);
      y := y + 1;
    }
    off := a[..];
    assert off == Offsets(dates, yMin, yMax, means);
  }

  /** `Tw_processed - Tw_offset`: missing where either is missing. */
  function Difference(p: seq<Option<real>>, off: seq<Option<real>>): (r: seq<Option<real>>)
    ensures |r| == |p|
  {
    seq(|p|, i requires 0 <= i < |p| =>
      if p[i].Some? && At(off, i).Some? then Some(p[i].value - At(off, i).value) else None)
  }

  /** `T_no_offset`: the difference with negatives set to 0; never
      negative, and equal to the difference wherever that is >= 0. */
  function NoOffset(p: seq<Option<real>>, off: seq<Option<real>>): (r: seq<Option<real>>)
    ensures |r| == |p|
    ensures forall i :: 0 <= i < |p| && r[i].Some? ==> r[i].value >= 0.0
    ensures forall i :: 0 <= i < |p| ==>
      (r[i].Some? <==> p[i].Some? && At(off, i).Some?)
    ensures forall i :: 0 <= i < |p| && p[i].Some? && At(off, i).Some? && p[i].value >= At(off, i).value ==>
      r[i] == Some(p[i].value - At(off, i).value)
  {
    Floored(Difference(p, off))
  }

  method RemoveOffset(p: seq<Option<real>>, off: seq<Option<real>>) returns (r: seq<Option<real>>)
    ensures r == NoOffset(p, off)
  {
    var d := Difference(p, off);
    var a := new Option<real>[|d|](i requires 0 <= i < |d| => d[i]);
    assert a[..] == d;
    FloorAtZero(a);
    r := a[..];
  }

  // ---------------------------------------------------------------------
  // Freeze-up dates

  /** `where(T <= 0.75, 0)` followed by `[> 0] = 1`.  On a series that is
      never negative (as `T_no_offset`) the indicator is 0 or 1, and 1
      exactly when 0 < T <= 0.75. */
  function Indicator(x: Option<real>): (f: real)
    ensures x.None? ==> f == 0.0
    ensures x.Some? && x.value >= 0.0 ==>
      (f == 0.0 || f == 1.0) && (f == 1.0 <==> 0.0 < x.value <= FreezingThreshold)
    ensures x.Some? && x.value < 0.0 ==> f == x.value
  {
    var kept := if x.Some? && x.value <= FreezingThreshold then x.value else 0.0;
    if kept > 0.0 then 1.0 else kept
  }

  function Indicators(noOffset: seq<Option<real>>, n: nat): (r: seq<real>)
    ensures |r| == n
  {
    seq(n, i requires 0 <= i < n => Indicator(At(noOffset, i)))
  }

  /** The bin edges: November 1 of each year and May 31 of the next. */
  function BinEdges(yMin: int, yMax: int): (e: seq<Calendar.Date>)
    ensures |e| == if yMax < yMin then 0 else 2 * (yMax - yMin + 1)
    ensures forall k :: 0 <= k < |e| / 2 ==>
      e[2 * k] == Calendar.Date(yMin + k, 11, 1) && e[2 * k + 1] == Calendar.Date(yMin + k + 1, 5, 31)
    decreases yMax - yMin
  {
    if yMax < yMin then []
    else
      var init := BinEdges(yMin, yMax - 1);
      var e := init + [Calendar.Date(yMax, 11, 1), Calendar.Date(yMax + 1, 5, 31)];
      assert forall k :: 0 <= k < |init| / 2 ==> e[2 * k] == init[2 * k] && e[2 * k + 1] == init[2 * k + 1];
      e
  }

  /** The loop building `bins`. */
  method BuildBinEdges(yMin: int, yMax: int) returns (bins: seq<Calendar.Date>)
    ensures bins == BinEdges(yMin, yMax)
  {
    bins := [];
    var y := yMin;
    while y <= yMax
      invariant y <= yMax + 1 || y == yMin
      invariant bins == BinEdges(yMin, y - 1)
      decreases yMax - y
    {
      bins := bins + [Calendar.Date(y, 11, 1), Calendar.Date(y + 1, 5, 31)];
      y := y + 1;
    }
  }

  /** `groupby_bins(...)[0:-1:2]`: of the right-closed intervals between
      consecutive edges, every other one, without the last. */
  function KeptBins(edges: seq<Calendar.Date>): (r: seq<(Calendar.Date, Calendar.Date)>)
    ensures |edges| > 0 ==> |r| == (|edges| - 1) / 2
    ensures forall k :: 0 <= k < |r| ==> 2 * k + 1 < |edges| && r[k] == (edges[2 * k], edges[2 * k + 1])
  {
    var n := if |edges| == 0 then 0 else (|edges| - 1) / 2;
    seq(n, k requires 0 <= k < n => (edges[2 * k], edges[2 * k + 1]))
  }

  /** The kept bins are the winters `yMin .. yMax - 1`, each from
      November 1 (exclusive) to May 31 of the next year (inclusive). */
  lemma KeptBinsAreWinters(yMin: int, yMax: int)
    requires yMin <= yMax
    ensures |KeptBins(BinEdges(yMin, yMax))| == yMax - yMin
    ensures forall k :: 0 <= k < yMax - yMin ==>
      KeptBins(BinEdges(yMin, yMax))[k] == (Calendar.Date(yMin + k, 11, 1), Calendar.Date(yMin + k + 1, 5, 31))
  {
    var e := BinEdges(yMin, yMax);
    assert |e| / 2 == yMax - yMin + 1;
  }

  /** Membership of the right-closed interval `(lo, hi]`. */
  predicate InBin(d: Calendar.Date, bin: (Calendar.Date, Calendar.Date)) {
    Calendar.Before(bin.0, d) && !Calendar.Before(bin.1, d)
  }

  /** The (date, indicator) pairs of a bin, in series order. */
  function BinContents(dates: seq<Calendar.Date>, ind: seq<real>, bin: (Calendar.Date, Calendar.Date)): (r: seq<(Calendar.Date, real)>)
    requires |ind| == |dates|
    ensures forall x :: x in r ==> InBin(x.0, bin)
    ensures forall i :: 0 <= i < |dates| && InBin(dates[i], bin) ==> (dates[i], ind[i]) in r
    ensures forall x :: x in r ==> exists i :: 0 <= i < |dates| && x == (dates[i], ind[i])
    decreases |dates|
  {
    if dates == [] then []
    else
      var n := |dates| - 1;
      var init := BinContents(dates[..n], ind[..n], bin);
      if InBin(dates[n], bin) then init + [(dates[n], ind[n])] else init
  }

  function Values(bin: seq<(Calendar.Date, real)>): (r: seq<real>)
    ensures |r| == |bin| && forall k :: 0 <= k < |bin| ==> r[k] == bin[k].1
  {
    seq(|bin|, k requires 0 <= k < |bin| => bin[k].1)
  }

  /** `idxmax` within a bin. */
  function FreezeUpIndex(bin: seq<(Calendar.Date, real)>): (r: int)
    requires |bin| > 0
    ensures 0 <= r < |bin|
  {
    Numeric.FirstArgMax(Values(bin))
  }

  /** With a 0/1 indicator, the freeze-up is the first frozen day of the
      bin, and the bin's first day when no day is frozen. */
  lemma FreezeUpIsFirstFrozen(bin: seq<(Calendar.Date, real)>)
    requires |bin| > 0
    requires forall k :: 0 <= k < |bin| ==> bin[k].1 == 0.0 || bin[k].1 == 1.0
    ensures (exists k :: 0 <= k < |bin| && bin[k].1 == 1.0) ==>
      bin[FreezeUpIndex(bin)].1 == 1.0 && forall k :: 0 <= k < FreezeUpIndex(bin) ==> bin[k].1 == 0.0
    ensures (forall k :: 0 <= k < |bin| ==> bin[k].1 == 0.0) ==> FreezeUpIndex(bin) == 0
  {
    var r := FreezeUpIndex(bin);
    var v := Values(bin);
    if exists k :: 0 <= k < |bin| && bin[k].1 == 1.0 {
      var k :| 0 <= k < |bin| && bin[k].1 == 1.0;
      assert v[k] <= v[r];
    }
    assert r > 0 ==> v[0] < v[r];
  }

  /** The date `idxmax` picks in a non-empty bin. */
  function FreezeUpOf(bin: seq<(Calendar.Date, real)>): Calendar.Date
    requires |bin| > 0
  {
    bin[FreezeUpIndex(bin)].0
  }

  /** The freeze-up of a bin is the date of its first largest indicator. */
  lemma FreezeUpOfFirstMaximum(bin: seq<(Calendar.Date, real)>)
    requires |bin| > 0
    ensures exists k ::
      0 <= k < |bin| && FreezeUpOf(bin) == bin[k].0 &&
      (forall j :: 0 <= j < |bin| ==> bin[j].1 <= bin[k].1) &&
      (forall j :: 0 <= j < k ==> bin[j].1 < bin[k].1)
  {
    var k := FreezeUpIndex(bin);
    var v := Values(bin);
    assert k == Numeric.FirstArgMax(v);
    assert FreezeUpOf(bin) == bin[k].0;
    assert forall j :: 0 <= j < |bin| ==> bin[j].1 == v[j] <= v[k] == bin[k].1;
    assert forall j :: 0 <= j < k ==> bin[j].1 == v[j] < v[k] == bin[k].1;
  }

  /** One freeze-up date per kept bin; a bin without data has no `idxmax`
      result, and the job fails. */
  function FreezeUps(dates: seq<Calendar.Date>, ind: seq<real>, bins: seq<(Calendar.Date, Calendar.Date)>): (r: Option<seq<Calendar.Date>>)
    requires |ind| == |dates|
    ensures r.None? ==> exists k :: 0 <= k < |bins| && BinContents(dates, ind, bins[k]) == []
    ensures r.Some? ==> |r.value| == |bins| && forall k :: 0 <= k < |bins| ==>
      BinContents(dates, ind, bins[k]) != [] && r.value[k] == FreezeUpOf(BinContents(dates, ind, bins[k]))
    decreases |bins|
  {
    if bins == [] then Some([])
    else
      var n := |bins| - 1;
      var init := FreezeUps(dates, ind, bins[..n]);
      var b := BinContents(dates, ind, bins[n]);
      assert forall k :: 0 <= k < n ==> bins[..n][k] == bins[k];
      if init.None? || b == [] then None
      else Some(init.value + [FreezeUpOf(b)])
  }

  /** The freeze-up date of each winter lies in its bin and is one of the
      series' dates. */
  lemma FreezeUpInBin(dates: seq<Calendar.Date>, ind: seq<real>, bins: seq<(Calendar.Date, Calendar.Date)>, k: int)
    requires |ind| == |dates|
    requires FreezeUps(dates, ind, bins).Some? && 0 <= k < |bins|
    ensures InBin(FreezeUps(dates, ind, bins).value[k], bins[k])
    ensures FreezeUps(dates, ind, bins).value[k] in dates
  {
    var b := BinContents(dates, ind, bins[k]);
    var x := b[FreezeUpIndex(b)];
    assert FreezeUps(dates, ind, bins).value[k] == x.0;
    assert x in b;
    var i :| 0 <= i < |dates| && x == (dates[i], ind[i]);
  }

  /** The FUDoy correction: a day of year below 300 is counted from the
      previous January 1, with the leap test of the given year. */
  function Wrap(doy: int, leapYear: int): (r: int)
    ensures doy >= 1 ==> r >= WrapBelow
    ensures r == doy || r == doy + Calendar.DaysInYear(leapYear)
    ensures doy >= WrapBelow ==> r == doy
  {
    if doy < WrapBelow then doy + Calendar.DaysInYear(leapYear) else doy
  }

  function Wrapped(doy: seq<int>, leapYear: int): (r: seq<int>)
    ensures |r| == |doy|
  {
    seq(|doy|, i requires 0 <= i < |doy| => Wrap(doy[i], leapYear))
  }

  /** The `doy[i] +=` loop.  The leap test reads the loop variable left
      over from the bin loop, so `leapYear` is `yMax` for every season. */
  method WrapDaysOfYear(doy: array<int>, leapYear: int)
    modifies doy
    ensures doy[..] == Wrapped(old(doy[..]), leapYear)
  {
    ghost var d0 := doy[..];
    for i := 0 to doy.Length
      invariant forall k :: 0 <= k < i ==> doy[k] == Wrap(d0[k], leapYear)
      invariant forall k :: i <= k < doy.Length ==> doy[k] == d0[k]
    {
      if doy[i] < WrapBelow {
        if Calendar.IsLeap(leapYear) {
          doy[i] := doy[i] + 366;
        } else {
          doy[i] := doy[i] + 365;
        }
      }
    }
    assert doy[..] == Wrapped(d0, leapYear);
  }

  function DaysOfYear(ds: seq<Calendar.Date>): (r: seq<int>)
    requires forall i :: 0 <= i < |ds| ==> Calendar.ValidDate(ds[i])
    ensures |r| == |ds|
    ensures forall i :: 0 <= i < |ds| ==> r[i] == Calendar.DayOfYear(ds[i])
  {
    seq(|ds|, i requires 0 <= i < |ds| => Calendar.DayOfYear(ds[i]))
  }

  /** Every FUDoy is at least 300. */
  lemma FudoyAtLeast300(ds: seq<Calendar.Date>, leapYear: int)
    requires forall i :: 0 <= i < |ds| ==> Calendar.ValidDate(ds[i])
    ensures forall i :: 0 <= i < |ds| ==> Wrapped(DaysOfYear(ds), leapYear)[i] >= WrapBelow
  {
    forall i | 0 <= i < |ds|
      ensures Wrapped(DaysOfYear(ds), leapYear)[i] >= WrapBelow
    {
      assert DaysOfYear(ds)[i] >= 1;
    }
  }

  // ---------------------------------------------------------------------
  // Common period of freeze-up dates and predictors

  function MinOf(s: seq<int>): (m: int)
    requires |s| > 0
    ensures m in s && forall x :: x in s ==> m <= x
    decreases |s|
  {
    if |s| == 1 then s[0]
    else
      var m := MinOf(s[..|s| - 1]);
      assert forall x :: x in s ==> x in s[..|s| - 1] || x == s[|s| - 1];
      if s[|s| - 1] < m then s[|s| - 1] else m
  }

  function MaxOf(s: seq<int>): (m: int)
    requires |s| > 0
    ensures m in s && forall x :: x in s ==> x <= m
    decreases |s|
  {
    if |s| == 1 then s[0]
    else
      var m := MaxOf(s[..|s| - 1]);
      assert forall x :: x in s ==> x in s[..|s| - 1] || x == s[|s| - 1];
      if s[|s| - 1] > m then s[|s| - 1] else m
  }

  /** `np.arange(lo, hi)`. */
  function Range(lo: int, hi: int): (r: seq<int>)
    ensures |r| == if hi < lo then 0 else hi - lo
    ensures forall k :: 0 <= k < |r| ==> r[k] == lo + k
  {
    seq(if hi < lo then 0 else hi - lo, k => lo + k)
  }

  /** `(start, end)`: the later of the two first years and the earlier of
      the two last years; `None` when either axis is empty (`min` of an
      empty array raises). */
  function CommonPeriod(a: seq<int>, b: seq<int>): (r: Option<(int, int)>)
    ensures r.Some? <==> |a| > 0 && |b| > 0
    ensures r.Some? ==> (forall x :: x in a || x in b ==> (r.value.0 <= x <==> MinOf(a) <= x && MinOf(b) <= x))
    ensures r.Some? ==> (forall x :: x in a || x in b ==> (x <= r.value.1 <==> x <= MaxOf(a) && x <= MaxOf(b)))
  {
    if |a| == 0 || |b| == 0 then None
    else
      var start := if MinOf(a) >= MinOf(b) then MinOf(a) else MinOf(b);
      var end := if MaxOf(a) <= MaxOf(b) then MaxOf(a) else MaxOf(b);
      Some((start, end))
  }

  /** `sel(time=slice(start, end + 1))`: the year is kept when it lies in
      the closed range `start .. end + 1`. */
  predicate InPeriod(y: int, p: (int, int)) {
    p.0 <= y <= p.1 + 1
  }

  /** A year of predictors (ERA5 aggregates), as in `monthly_predictors`. */
  datatype PredictorYear = PredictorYear(year: int, values: seq<Option<real>>)

  function PredictorYears(ps: seq<PredictorYear>): (r: seq<int>)
    ensures |r| == |ps| && forall k :: 0 <= k < |ps| ==> r[k] == ps[k].year
  {
    seq(|ps|, k requires 0 <= k < |ps| => ps[k].year)
  }

  function SelectPredictors(ps: seq<PredictorYear>, p: (int, int)): (r: seq<PredictorYear>)
    ensures forall x :: x in r <==> x in ps && InPeriod(x.year, p)
    decreases |ps|
  {
    if ps == [] then []
    else
      var n := |ps| - 1;
      var init := SelectPredictors(ps[..n], p);
      assert forall x :: x in ps <==> x in ps[..n] || x == ps[n];
      if InPeriod(ps[n].year, p) then init + [ps[n]] else init
  }

  /** The FUDoy series as (year, FUDoy) pairs restricted to the period. */
  function SelectFudoy(years: seq<int>, fudoy: seq<int>, p: (int, int)): (r: seq<(int, int)>)
    requires |years| == |fudoy|
    ensures forall x :: x in r ==> InPeriod(x.0, p)
    ensures forall k :: 0 <= k < |years| && InPeriod(years[k], p) ==> (years[k], fudoy[k]) in r
    ensures forall x :: x in r ==> exists k :: 0 <= k < |years| && x == (years[k], fudoy[k])
    decreases |years|
  {
    if years == [] then []
    else
      var n := |years| - 1;
      var init := SelectFudoy(years[..n], fudoy[..n], p);
      if InPeriod(years[n], p) then init + [(years[n], fudoy[n])] else init
  }

  /** The FUDoy of year `y` among the (year, FUDoy) pairs, the first one
      when the year repeats; `None`, NaN, when the year is missing. */
  function FudoyOf(pairs: seq<(int, int)>, y: int): Option<int>
    decreases |pairs|
  {
    if pairs == [] then None
    else if pairs[0].0 == y then Some(pairs[0].1)
    else FudoyOf(pairs[1..], y)
  }

  /** A pair appended at the end is found only when the year is missing
      before it. */
  lemma {:induction false} FudoyOfAppend(pairs: seq<(int, int)>, x: (int, int), y: int)
    ensures FudoyOf(pairs + [x], y) ==
      if FudoyOf(pairs, y).Some? then FudoyOf(pairs, y) else if x.0 == y then Some(x.1) else None
    decreases |pairs|
  {
    if pairs != [] {
      assert (pairs + [x])[1..] == pairs[1..] + [x];
      FudoyOfAppend(pairs[1..], x, y);
    }
  }

  /** `monthly_predictors["FUDoy"] = ...`: assigning into the dataset
      aligns the FUDoy values to the predictor years already selected, so
      each predictor row gets the FUDoy of its own year, or NaN. */
  function AlignFudoy(pairs: seq<(int, int)>, rows: seq<PredictorYear>): (r: seq<Option<int>>)
    ensures |r| == |rows| && forall i :: 0 <= i < |rows| ==> r[i] == FudoyOf(pairs, rows[i].year)
  {
    seq(|rows|, i requires 0 <= i < |rows| => FudoyOf(pairs, rows[i].year))
  }

  /** Each predictor row carries the FUDoy of its own winter of the record
      starting in `lo`, or NaN when the record has no such winter. */
  predicate AlignedTo(aligned: seq<Option<int>>, rows: seq<PredictorYear>, lo: int, fudoy: seq<int>) {
    |aligned| == |rows|
    && forall i :: 0 <= i < |rows| ==>
      aligned[i] == if lo <= rows[i].year < lo + |fudoy| then Some(fudoy[rows[i].year - lo]) else None
  }

  /** Hence the whole FUDoy column of rows in the period is aligned. */
  lemma AlignedRows(lo: int, hi: int, fudoy: seq<int>, p: (int, int), rows: seq<PredictorYear>)
    requires |fudoy| == hi - lo
    requires forall i :: 0 <= i < |rows| ==> InPeriod(rows[i].year, p)
    ensures AlignedTo(AlignFudoy(SelectFudoy(Range(lo, hi), fudoy, p), rows), rows, lo, fudoy)
  {
    var pairs := SelectFudoy(Range(lo, hi), fudoy, p);
    var aligned := AlignFudoy(pairs, rows);
    forall i | 0 <= i < |rows|
      ensures aligned[i] == if lo <= rows[i].year < lo + |fudoy| then Some(fudoy[rows[i].year - lo]) else None
    {
      var y := rows[i].year;
      AlignedFudoyOfRange(lo, hi, fudoy, p, y);
      assert aligned[i] == FudoyOf(pairs, y);
    }
  }

  /** Every selected predictor row lies in the period. */
  lemma SelectedInPeriod(ps: seq<PredictorYear>, p: (int, int))
    ensures forall i :: 0 <= i < |SelectPredictors(ps, p)| ==> InPeriod(SelectPredictors(ps, p)[i].year, p)
  {
    var rows := SelectPredictors(ps, p);
    forall i | 0 <= i < |rows| ensures InPeriod(rows[i].year, p) {
      assert rows[i] in rows;
    }
  }

  /** On the consecutive winters `lo .. hi - 1` of the record, a year of
      the period gets the FUDoy of its own winter, or NaN outside the
      record. */
  lemma {:induction false} AlignedFudoyOfRange(lo: int, hi: int, fudoy: seq<int>, p: (int, int), y: int)
    requires |fudoy| == hi - lo && InPeriod(y, p)
    ensures FudoyOf(SelectFudoy(Range(lo, hi), fudoy, p), y) ==
      if lo <= y < hi then Some(fudoy[y - lo]) else None
    decreases hi - lo
  {
    if hi > lo {
      var n := hi - lo - 1;
      var pre := SelectFudoy(Range(lo, hi - 1), fudoy[..n], p);
      SelectFudoyStep(lo, hi, fudoy, p);
      AlignedFudoyOfRange(lo, hi - 1, fudoy[..n], p, y);
      FudoyOfAppend(pre, (hi - 1, fudoy[n]), y);
      if lo <= y < hi - 1 {
        assert fudoy[..n][y - lo] == fudoy[y - lo];
      }
    } else {
      assert Range(lo, hi) == [];
    }
  }

  /** The last winter of the record is selected after the others. */
  lemma SelectFudoyStep(lo: int, hi: int, fudoy: seq<int>, p: (int, int))
    requires |fudoy| == hi - lo && hi > lo
    ensures var n := hi - lo - 1;
      var pre := SelectFudoy(Range(lo, hi - 1), fudoy[..n], p);
      SelectFudoy(Range(lo, hi), fudoy, p) == if InPeriod(hi - 1, p) then pre + [(hi - 1, fudoy[n])] else pre
  {
    var n := hi - lo - 1;
    assert Range(lo, hi)[..n] == Range(lo, hi - 1);
  }

  /** The first and last of the winters `lo .. hi - 1`. */
  lemma {:induction false} RangeBounds(lo: int, hi: int)
    requires lo < hi
    ensures MinOf(Range(lo, hi)) == lo && MaxOf(Range(lo, hi)) == hi - 1
    decreases hi - lo
  {
    if hi - lo > 1 {
      assert Range(lo, hi)[..hi - lo - 1] == Range(lo, hi - 1);
      RangeBounds(lo, hi - 1);
    }
  }

  // ---------------------------------------------------------------------
  // The whole yearly job

  /** A day of `Twater_Longueuil_preprocessed.nc`. */
  datatype QcRow = QcRow(date: Calendar.Date, temp: Option<real>, processed: Option<real>,
                         offset: Option<real>, noOffset: Option<real>)

  /** What the job writes: the preprocessed store (through December 31 of
      the previous year), the FUD file, the predictors restricted to the
      common period with the FUDoy of each predictor year (NaN where the
      record has none), and the `preproy` marker. */
  datatype YearlyOutput = YearlyOutput(
    saved: seq<QcRow>,
    fudYears: seq<int>, fud: seq<Calendar.Date>, fudoy: seq<int>,
    predictors: seq<PredictorYear>, predictorFudoy: seq<Option<int>>,
    marker: string)

  const EmptyError: string := "zero-size array to reduction operation minimum which has no identity"
  const NoWinterError: string := "no winter mean to select from"
  const EmptyBinError: string := "a winter bin holds no data"
  const Marker: string := "True"

  predicate ValidDays(days: seq<Daily>) {
    forall i :: 0 <= i < |days| ==> Calendar.ValidDate(days[i].date)
  }

  function Years(days: seq<Daily>): (r: seq<int>)
    ensures |r| == |days| && forall i :: 0 <= i < |days| ==> r[i] == days[i].date.year
  {
    seq(|days|, i requires 0 <= i < |days| => days[i].date.year)
  }

  function Rows(days: seq<Daily>, p: seq<Option<real>>, off: seq<Option<real>>, n: seq<Option<real>>): (r: seq<QcRow>)
    ensures |r| == |days|
  {
    seq(|days|, i requires 0 <= i < |days| => QcRow(days[i].date, days[i].temp, At(p, i), At(off, i), At(n, i)))
  }

  /** `sel(Date=slice(None, last))`. */
  function SavedThrough(rows: seq<QcRow>, last: Calendar.Date): (r: seq<QcRow>)
    ensures forall x :: x in r <==> x in rows && !Calendar.Before(last, x.date)
    decreases |rows|
  {
    if rows == [] then []
    else
      var n := |rows| - 1;
      var init := SavedThrough(rows[..n], last);
      assert forall x :: x in rows <==> x in rows[..n] || x == rows[n];
      if Calendar.Before(last, rows[n].date) then init else init + [rows[n]]
  }

  /** Freeze-up dates are dates of the series, hence valid. */
  lemma FreezeUpsValid(dates: seq<Calendar.Date>, ind: seq<real>, bins: seq<(Calendar.Date, Calendar.Date)>)
    requires |ind| == |dates|
    requires forall i :: 0 <= i < |dates| ==> Calendar.ValidDate(dates[i])
    requires FreezeUps(dates, ind, bins).Some?
    ensures forall k :: 0 <= k < |FreezeUps(dates, ind, bins).value| ==>
      Calendar.ValidDate(FreezeUps(dates, ind, bins).value[k])
  {
    forall k | 0 <= k < |FreezeUps(dates, ind, bins).value|
      ensures Calendar.ValidDate(FreezeUps(dates, ind, bins).value[k])
    {
      FreezeUpInBin(dates, ind, bins, k);
    }
  }

  /** The three derived series of the saved store. */
    function YearMin(days: seq<Daily>): int
    requires |days| > 0
  {
    MinOf(Years(days))
  }

  function YearMax(days: seq<Daily>): (y: int)
    requires |days| > 0
    ensures YearMin(days) <= y
  {
    MaxOf(Years(days))
  }

  /** `T_processed`, `T_winter_offset` and `T_no_offset`. */
  function Derive(config: QcConfig, days: seq<Daily>, lib: QcLibrary): (r: Result<(seq<Option<real>>, seq<Option<real>>, seq<Option<real>>)>)
    requires |days| > 0
    ensures r.Ok? ==> r.value.2 == NoOffset(r.value.0, r.value.1)
  {
    var dates := Dates(days);
    var processed := Processed(config, days, lib);
    var winter := Winter(processed, Rate(config, days, lib), Curvature(config, days, lib), config.threshold);
    var means := WinterMeans(lib.quarterlyMeans(dates, winter));
    if means == [] then Err(NoWinterError)
    else
      var offset := lib.offsetInterp(dates, Offsets(dates, YearMin(days), YearMax(days), means));
      Ok((processed, offset, NoOffset(processed, offset)))
  }

  method DeriveSeries(config: QcConfig, days: seq<Daily>, lib: QcLibrary) returns (r: Result<(seq<Option<real>>, seq<Option<real>>, seq<Option<real>>)>)
    requires |days| > 0
    ensures r == Derive(config, days, lib)
  {
    var dates := Dates(days);
    var processed := Clean(config, days, lib);
    var winter := WinterSamples(processed, Rate(config, days, lib), Curvature(config, days, lib), config.threshold);
    var means := WinterMeans(lib.quarterlyMeans(dates, winter));
    if means == [] {
      return Err(NoWinterError);
    }
    var off := AssignOffsets(dates, YearMin(days), YearMax(days), means);
    var offset := lib.offsetInterp(dates, off);
    var noOffset := RemoveOffset(processed, offset);
    r := Ok((processed, offset, noOffset));
  }

  /** The bin of winter `y`. */
  function WinterBin(y: int): (Calendar.Date, Calendar.Date) {
    (Calendar.Date(y, 11, 1), Calendar.Date(y + 1, 5, 31))
  }

  lemma WinterFreezeUps(dates: seq<Calendar.Date>, ind: seq<real>, yMin: int, yMax: int)
    requires |ind| == |dates| && yMin <= yMax
    requires forall i :: 0 <= i < |dates| ==> Calendar.ValidDate(dates[i])
    requires FreezeUps(dates, ind, KeptBins(BinEdges(yMin, yMax))).Some?
    ensures var fud := FreezeUps(dates, ind, KeptBins(BinEdges(yMin, yMax))).value;
      |fud| == yMax - yMin
      && forall k :: 0 <= k < |fud| ==> (Calendar.ValidDate(fud[k]) && InBin(fud[k], WinterBin(yMin + k)))
  {
    var bins := KeptBins(BinEdges(yMin, yMax));
    KeptBinsAreWinters(yMin, yMax);
    FreezeUpsValid(dates, ind, bins);
    forall k | 0 <= k < |bins|
      ensures InBin(FreezeUps(dates, ind, bins).value[k], WinterBin(yMin + k))
    {
      FreezeUpInBin(dates, ind, bins, k);
    }
  }

  /** The FUD series: one date per winter `yMin .. yMax - 1`, inside that
      winter's bin. */
  function FreezeUpDates(days: seq<Daily>, noOffset: seq<Option<real>>): (r: Option<seq<Calendar.Date>>)
    requires ValidDays(days) && |days| > 0
    ensures r.Some? ==> |r.value| == YearMax(days) - YearMin(days)
    ensures r.Some? ==> forall k :: 0 <= k < |r.value| ==>
      (Calendar.ValidDate(r.value[k]) && InBin(r.value[k], WinterBin(YearMin(days) + k)))
  {
    var dates := Dates(days);
    assert forall i :: 0 <= i < |dates| ==> Calendar.ValidDate(dates[i]);
    WinterFreeze(dates, Indicators(noOffset, |dates|), YearMin(days), YearMax(days))
  }

  /** The freeze-up date of each winter `yMin .. yMax - 1` of the indicator
      series `ind` on `dates`, if every winter has one. */
  function WinterFreeze(dates: seq<Calendar.Date>, ind: seq<real>, yMin: int, yMax: int): (r: Option<seq<Calendar.Date>>)
    requires |ind| == |dates| && yMin <= yMax
    requires forall i :: 0 <= i < |dates| ==> Calendar.ValidDate(dates[i])
    ensures r.Some? ==> |r.value| == yMax - yMin
    ensures r.Some? ==> forall k :: 0 <= k < |r.value| ==>
      (Calendar.ValidDate(r.value[k]) && InBin(r.value[k], WinterBin(yMin + k)))
  {
    var fud := FreezeUps(dates, ind, KeptBins(BinEdges(yMin, yMax)));
    if fud.Some? then WinterFreezeUps(dates, ind, yMin, yMax); fud else fud
  }

  method ExtractFreezeUps(days: seq<Daily>, noOffset: seq<Option<real>>) returns (r: Option<seq<Calendar.Date>>)
    requires ValidDays(days) && |days| > 0
    ensures r == FreezeUpDates(days, noOffset)
  {
    var dates := Dates(days);
    var edges := BuildBinEdges(YearMin(days), YearMax(days));
    r := FreezeUps(dates, Indicators(noOffset, |dates|), KeptBins(edges));
  }

  /** FUDoy: every value is at least 300. */
  function Fudoy(fud: seq<Calendar.Date>, leapYear: int): (r: seq<int>)
    requires forall k :: 0 <= k < |fud| ==> Calendar.ValidDate(fud[k])
    ensures |r| == |fud|
    ensures forall k :: 0 <= k < |r| ==>
      (r[k] >= WrapBelow
       && (r[k] == Calendar.DayOfYear(fud[k]) || r[k] == Calendar.DayOfYear(fud[k]) + Calendar.DaysInYear(leapYear)))
  {
    FudoyAtLeast300(fud, leapYear);
    Wrapped(DaysOfYear(fud), leapYear)
  }

  method ComputeFudoy(fud: seq<Calendar.Date>, leapYear: int) returns (r: seq<int>)
    requires forall k :: 0 <= k < |fud| ==> Calendar.ValidDate(fud[k])
    ensures r == Fudoy(fud, leapYear)
  {
    var initial := DaysOfYear(fud);
    var doy := new int[|initial|](i requires 0 <= i < |initial| => initial[i]);
    assert doy[..] == initial;
    WrapDaysOfYear(doy, leapYear);
    r := doy[..];
  }

  /** The output files, once the series and the dates are known. */
  function Output(nowYear: int, days: seq<Daily>, s: (seq<Option<real>>, seq<Option<real>>, seq<Option<real>>),
                  fud: seq<Calendar.Date>, fudoy: seq<int>, ps: seq<PredictorYear>): (r: Result<YearlyOutput>)
    requires |days| > 0 && |fud| == |fudoy| == YearMax(days) - YearMin(days)
    ensures r.Ok? ==>
      (r.value.fud == fud && r.value.fudoy == fudoy && r.value.marker == Marker
       && r.value.fudYears == Range(YearMin(days), YearMax(days)))
    ensures r.Ok? ==> r.value.saved == Saved(nowYear, days, s)
  {
    var lo, hi := YearMin(days), YearMax(days);
    var years := Range(lo, hi);
    var period := CommonPeriod(years, PredictorYears(ps));
    if period.None? then Err(EmptyError)
    else
      var rows := SelectPredictors(ps, period.value);
      var aligned := AlignFudoy(SelectFudoy(years, fudoy, period.value), rows);
      Ok(YearlyOutput(Saved(nowYear, days, s), years, fud, fudoy, rows, aligned, Marker))
  }

  /** `Twater_Longueuil_preprocessed.nc`: the record with its three derived
      series, through December 31 of the previous year. */
  function Saved(nowYear: int, days: seq<Daily>, s: (seq<Option<real>>, seq<Option<real>>, seq<Option<real>>)): (r: seq<QcRow>)
    ensures forall x :: x in r ==> !Calendar.Before(Calendar.Date(nowYear - 1, 12, 31), x.date)
  {
    SavedThrough(Rows(days, s.0, s.1, s.2), Calendar.Date(nowYear - 1, 12, 31))
  }

  /** The common period of the winters `lo .. hi - 1` and the predictor
      years. */
  lemma PeriodOfRange(lo: int, hi: int, ps: seq<PredictorYear>)
    requires lo < hi && |ps| > 0
    ensures var ys := PredictorYears(ps);
      CommonPeriod(Range(lo, hi), ys) ==
        Some((if lo >= MinOf(ys) then lo else MinOf(ys), if hi - 1 <= MaxOf(ys) then hi - 1 else MaxOf(ys)))
  {
    RangeBounds(lo, hi);
  }

  /** The predictors file and the marker are written unless the record
      has no winter or there are no predictors (`min` of an empty axis
      raises); the two files written before are described by `Job`. */
  lemma OutputOk(nowYear: int, days: seq<Daily>, s: (seq<Option<real>>, seq<Option<real>>, seq<Option<real>>),
                 fud: seq<Calendar.Date>, fudoy: seq<int>, ps: seq<PredictorYear>)
    requires |days| > 0 && |fud| == |fudoy| == YearMax(days) - YearMin(days)
    ensures Output(nowYear, days, s, fud, fudoy, ps).Ok? <==> YearMin(days) < YearMax(days) && |ps| > 0
  {
  }

  /** The predictors written are those of the common period extended by
      one year, each with the FUDoy of its own winter, NaN where the
      record has none. */
  lemma OutputAligned(nowYear: int, days: seq<Daily>, s: (seq<Option<real>>, seq<Option<real>>, seq<Option<real>>),
                      fud: seq<Calendar.Date>, fudoy: seq<int>, ps: seq<PredictorYear>)
    requires |days| > 0 && |fud| == |fudoy| == YearMax(days) - YearMin(days)
    requires Output(nowYear, days, s, fud, fudoy, ps).Ok?
    ensures var out := Output(nowYear, days, s, fud, fudoy, ps).value;
      out.predictors == SelectPredictors(ps, CommonPeriod(out.fudYears, PredictorYears(ps)).value)
      && AlignedTo(out.predictorFudoy, out.predictors, YearMin(days), fudoy)
  {
    var lo, hi := YearMin(days), YearMax(days);
    var p := CommonPeriod(Range(lo, hi), PredictorYears(ps)).value;
    SelectedInPeriod(ps, p);
    AlignedRows(lo, hi, fudoy, p, SelectPredictors(ps, p));
  }

  /** A freeze-up winter after the last predictor year is kept by the
      `end + 1` slice of the FUDoy series, but the assignment into the
      dataset drops it: no predictor row carries that year. */
  lemma ExtraFudYearDropped(nowYear: int, days: seq<Daily>, s: (seq<Option<real>>, seq<Option<real>>, seq<Option<real>>),
                            fud: seq<Calendar.Date>, fudoy: seq<int>, ps: seq<PredictorYear>)
    requires |days| > 0 && |fud| == |fudoy| == YearMax(days) - YearMin(days)
    requires Output(nowYear, days, s, fud, fudoy, ps).Ok?
    requires MaxOf(PredictorYears(ps)) == YearMax(days) - 2
    ensures var out := Output(nowYear, days, s, fud, fudoy, ps).value;
      var p := CommonPeriod(out.fudYears, PredictorYears(ps)).value;
      (YearMax(days) - 1, fudoy[|fudoy| - 1]) in SelectFudoy(out.fudYears, fudoy, p)
      && forall j :: 0 <= j < |out.predictors| ==> out.predictors[j].year != YearMax(days) - 1
  {
    var out := Output(nowYear, days, s, fud, fudoy, ps).value;
    var lo, hi := YearMin(days), YearMax(days);
    var ys := PredictorYears(ps);
    OutputOk(nowYear, days, s, fud, fudoy, ps);
    OutputAligned(nowYear, days, s, fud, fudoy, ps);
    PeriodOfRange(lo, hi, ps);
    var p := CommonPeriod(Range(lo, hi), ys).value;
    assert p.1 == hi - 2;
    assert Range(lo, hi)[hi - lo - 1] == hi - 1;
    forall j | 0 <= j < |out.predictors| ensures out.predictors[j].year != hi - 1 {
      var x := out.predictors[j];
      assert x in ps;
      var k :| 0 <= k < |ps| && ps[k] == x;
      assert ys[k] in ys;
    }
  }

  /** A predictor year one past the last freeze-up winter is kept by the
      `end + 1` slice, and its FUDoy is NaN. */
  lemma ExtraEra5YearGetsNan(nowYear: int, days: seq<Daily>, s: (seq<Option<real>>, seq<Option<real>>, seq<Option<real>>),
                             fud: seq<Calendar.Date>, fudoy: seq<int>, ps: seq<PredictorYear>, i: int)
    requires |days| > 0 && |fud| == |fudoy| == YearMax(days) - YearMin(days)
    requires Output(nowYear, days, s, fud, fudoy, ps).Ok?
    requires 0 <= i < |ps| && ps[i].year == YearMax(days)
    ensures var out := Output(nowYear, days, s, fud, fudoy, ps).value;
      ps[i] in out.predictors
      && forall j :: 0 <= j < |out.predictors| && out.predictors[j].year == YearMax(days) ==> out.predictorFudoy[j].None?
  {
    var lo, hi := YearMin(days), YearMax(days);
    var ys := PredictorYears(ps);
    OutputOk(nowYear, days, s, fud, fudoy, ps);
    OutputAligned(nowYear, days, s, fud, fudoy, ps);
    PeriodOfRange(lo, hi, ps);
    assert ys[i] in ys;
    assert InPeriod(ps[i].year, CommonPeriod(Range(lo, hi), ys).value);
  }

  /** The yearly job run in month `nowMonth` of year `nowYear`. */
  function Yearly(config: QcConfig, nowYear: int, nowMonth: int, days: seq<Daily>, ps: seq<PredictorYear>, lib: QcLibrary): (r: Result<YearlyOutput>)
    requires ValidDays(days)
    ensures nowMonth != JuneMonth ==> r == Err(MonthError)
  {
    if nowMonth != JuneMonth then Err(MonthError)
    else if days == [] then Err(EmptyError)
    else
      var s := Derive(config, days, lib);
      if s.Err? then Err(s.msg)
      else
        var fud := FreezeUpDates(days, s.value.2);
        if fud.None? then Err(EmptyBinError)
        else Output(nowYear, days, s.value, fud.value, Fudoy(fud.value, YearMax(days)), ps)
  }

  /** A successful run writes one freeze-up date and one FUDoy per winter
      `yMin .. yMax - 1`, each date inside its winter and every FUDoy at
      least 300, and then the marker. */
  lemma YearlyOutputShape(config: QcConfig, nowYear: int, days: seq<Daily>, ps: seq<PredictorYear>, lib: QcLibrary)
    requires ValidDays(days)
    requires Yearly(config, nowYear, JuneMonth, days, ps, lib).Ok?
    ensures |days| > 0
    ensures var out := Yearly(config, nowYear, JuneMonth, days, ps, lib).value;
      |out.fudYears| == |out.fud| == |out.fudoy| == YearMax(days) - YearMin(days)
      && out.marker == Marker
      && (forall k :: 0 <= k < |out.fud| ==>
            out.fudYears[k] == YearMin(days) + k
            && InBin(out.fud[k], WinterBin(YearMin(days) + k)))
      && (forall k :: 0 <= k < |out.fudoy| ==> out.fudoy[k] >= WrapBelow)
  {
    var s := Derive(config, days, lib).value;
    var fud := FreezeUpDates(days, s.2).value;
    var fudoy := Fudoy(fud, YearMax(days));
    assert Yearly(config, nowYear, JuneMonth, days, ps, lib) == Output(nowYear, days, s, fud, fudoy, ps);
  }

  /** `FUD_preprocessed.nc`: the winters with their freeze-up dates and
      days of year. */
  datatype FudFile = FudFile(years: seq<int>, fud: seq<Calendar.Date>, fudoy: seq<int>)

  /** The files a run leaves behind: the preprocessed store, the FUD file,
      and whether the predictors file and the `preproy` marker were
      written (their contents are the `YearlyOutput` of a successful run). */
  datatype Written = Written(saved: Option<seq<QcRow>>, fudFile: Option<FudFile>, complete: bool)

  const NothingWritten: Written := Written(None, None, false)

  /** A run in the script's order: the store is saved once the offset is
      known (:110), the FUD file once the freeze-ups are (:145), and only
      then are the predictors read and the common period taken. A run
      that stops there keeps the two files it has written. */
  function Job(config: QcConfig, nowYear: int, nowMonth: int, days: seq<Daily>, ps: seq<PredictorYear>, lib: QcLibrary): (j: (Result<YearlyOutput>, Written))
    requires ValidDays(days)
    ensures j.0 == Yearly(config, nowYear, nowMonth, days, ps, lib)
    ensures j.0.Ok? <==> j.1.complete
    ensures j.0.Ok? ==>
      j.1 == Written(Some(j.0.value.saved), Some(FudFile(j.0.value.fudYears, j.0.value.fud, j.0.value.fudoy)), true)
    ensures j.1.fudFile.Some? ==> j.1.saved.Some?
    ensures j.0 == Err(MonthError) ==> j.1 == NothingWritten
  {
    var r := Yearly(config, nowYear, nowMonth, days, ps, lib);
    if nowMonth != JuneMonth || days == [] then (r, NothingWritten)
    else
      var s := Derive(config, days, lib);
      if s.Err? then (r, NothingWritten)
      else
        var saved := Some(Saved(nowYear, days, s.value));
        var fud := FreezeUpDates(days, s.value.2);
        if fud.None? then (r, Written(saved, None, false))
        else
          var fudoy := Fudoy(fud.value, YearMax(days));
          (r, Written(saved, Some(FudFile(Range(YearMin(days), YearMax(days)), fud.value, fudoy)), r.Ok?))
  }

  /** A June run whose record has winter means and freeze-ups writes the
      preprocessed store and the FUD file, whatever the predictors are. */
  lemma StoreAndFudWritten(config: QcConfig, nowYear: int, days: seq<Daily>, ps: seq<PredictorYear>, lib: QcLibrary)
    requires ValidDays(days) && days != []
    requires Derive(config, days, lib).Ok?
    requires FreezeUpDates(days, Derive(config, days, lib).value.2).Some?
    ensures var w := Job(config, nowYear, JuneMonth, days, ps, lib).1;
      var fud := FreezeUpDates(days, Derive(config, days, lib).value.2).value;
      w.saved == Some(Saved(nowYear, days, Derive(config, days, lib).value))
      && w.fudFile == Some(FudFile(Range(YearMin(days), YearMax(days)), fud, Fudoy(fud, YearMax(days))))
  {
  }

  /** A record within one calendar year makes `min` of the empty FUD axis
      raise, and no predictor year stops the job at the ERA5 files: both
      after the two files are written, the FUD file then holding no winter
      when the record has none. */
  lemma EmptyPeriodKeepsFiles(config: QcConfig, nowYear: int, days: seq<Daily>, ps: seq<PredictorYear>, lib: QcLibrary)
    requires ValidDays(days) && days != []
    requires Derive(config, days, lib).Ok?
    requires FreezeUpDates(days, Derive(config, days, lib).value.2).Some?
    requires YearMin(days) == YearMax(days) || ps == []
    ensures var j := Job(config, nowYear, JuneMonth, days, ps, lib);
      j.0 == Err(EmptyError) && j.1.saved.Some? && j.1.fudFile.Some? && !j.1.complete
      && (YearMin(days) == YearMax(days) ==> j.1.fudFile.value.fud == [])
  {
    var s := Derive(config, days, lib).value;
    var fud := FreezeUpDates(days, s.2).value;
    OutputOk(nowYear, days, s, fud, Fudoy(fud, YearMax(days)), ps);
    StoreAndFudWritten(config, nowYear, days, ps, lib);
  }

  /** The job, with the in-place steps of the script; `w` is what it has
      written when it stops. */
  method RunYearly(config: QcConfig, nowYear: int, nowMonth: int, days: seq<Daily>, ps: seq<PredictorYear>, lib: QcLibrary)
    returns (r: Result<YearlyOutput>, w: Written)
    requires ValidDays(days)
    ensures (r, w) == Job(config, nowYear, nowMonth, days, ps, lib)
  {
    if nowMonth != JuneMonth {
      return Err(MonthError), NothingWritten;
    }
    if days == [] {
      return Err(EmptyError), NothingWritten;
    }
    var s := DeriveSeries(config, days, lib);
    if s.Err? {
      return Err(s.msg), NothingWritten;
    }
    var saved := Saved(nowYear, days, s.value);
    var fud := ExtractFreezeUps(days, s.value.2);
    if fud.None? {
      return Err(EmptyBinError), Written(Some(saved), None, false);
    }
    var fudoy := ComputeFudoy(fud.value, YearMax(days));
    r := Output(nowYear, days, s.value, fud.value, fudoy, ps);
    w := Written(Some(saved), Some(FudFile(Range(YearMin(days), YearMax(days)), fud.value, fudoy)), r.Ok?);
  }
}
