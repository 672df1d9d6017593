/** The one-off job that builds the permanent water-temperature store: the
    legacy daily spreadsheet, a climatological fill for the gap of
    2022-01-01..2023-11-14, the re-transferred thermistor spreadsheet, and
    the 24 thermistor files 4836..4859 that carry no timestamps. */
module InitialIngestion {
  import opened Wrappers
  import Calendar
  import opened Series
  import Ingestion

  const PermanentFile: string := "Twater_Longueuil_permanent.nc"
  const UpdatedFile: string := "Twater_Longueuil_updated.nc"
  const NextFile: string := "next.i"

  /** The files without timestamps are `Longueuil.dat4836.dat` to
      `Longueuil.dat4859.dat`; the daily job starts at 4860. */
  const ManualFirst: int := 4836
  const ManualLast: int := 4859
  const FirstTimestamped: int := 4860
  const NextText: string := "4860"

  /** Bounds of the climatological extension and of the part merged. */
  const ClimYear: int := 2022
  const ExtensionDays: int := 730
  const MergedExtensionDays: int := 683
  const MaxClimRate: real := 6.0
  const MaxClimTemperature: real := 30.0

  // ---------------------------------------------------------------------
  // Climatology and the gap fill

  /** `dTdt_ok` of the climatology: the rate is known and at most 6 degrees
      per 2-day unit in absolute value. */
  predicate ClimRateOk(rate: seq<Option<real>>, i: int) {
    0 <= i < |rate| && rate[i].Some? && -MaxClimRate <= rate[i].value <= MaxClimRate
  }

  function SmoothOne(s: seq<Sample>, rate: seq<Option<real>>, i: int): Sample
    requires 0 <= i < |s|
  {
    if s[i].temp.Some? && ClimRateOk(rate, i) && s[i].temp.value <= MaxClimTemperature then s[i]
    else Sample(s[i].time, None)
  }

  function SmoothPrefix(s: seq<Sample>, rate: seq<Option<real>>, n: int): (r: seq<Sample>)
    requires 0 <= n <= |s|
    ensures |r| == n && forall i :: 0 <= i < n ==> r[i] == SmoothOne(s, rate, i)
    decreases n
  {
    if n == 0 then [] else SmoothPrefix(s, rate, n - 1) + [SmoothOne(s, rate, n - 1)]
  }

  /** The series the climatology is computed from: a day is kept exactly
      when its rate of change is at most 6 per 2-day unit and its value at
      most 30 degrees; every other day becomes missing, none is removed. */
  function Smooth(s: seq<Sample>, rate: seq<Option<real>>): (r: seq<Sample>)
    ensures |r| == |s|
    ensures forall i :: 0 <= i < |s| ==> r[i].time == s[i].time
    ensures forall i :: 0 <= i < |s| ==>
      (r[i].temp.Some? <==> s[i].temp.Some? && ClimRateOk(rate, i) && s[i].temp.value <= MaxClimTemperature)
    ensures forall i :: 0 <= i < |s| && r[i].temp.Some? ==> r[i] == s[i]
  {
    SmoothPrefix(s, rate, |s|)
  }

  /** Day `k` of the extension is day `k` after 2022-01-01. */
  function ExtensionDay(k: int): int {
    Calendar.YearStart(ClimYear) + k
  }

  function ExtensionPrefix(clim: seq<Option<real>>, n: int): (r: seq<Sample>)
    requires |clim| == 366 && 0 <= n <= ExtensionDays
    ensures |r| == n
    ensures forall k :: 0 <= k < n ==> r[k] == Sample(ExtensionDay(k) * Calendar.SecondsPerDay, clim[k % 365])
    decreases n
  {
    if n == 0 then []
    else ExtensionPrefix(clim, n - 1) + [Sample(ExtensionDay(n - 1) * Calendar.SecondsPerDay, clim[(n - 1) % 365])]
  }

  /** The daily series 2022-01-01..2023-12-31 filled with the day-of-year
      climatology without its day 366, twice over. Assigning the 730 days
      fails unless the climatology has exactly 366 entries. */
  function Extension(clim: seq<Option<real>>): (r: Result<seq<Sample>>)
    ensures r.Ok? <==> |clim| == 366
    ensures r.Ok? ==> |r.value| == ExtensionDays
    ensures r.Ok? ==> forall k :: 0 <= k < ExtensionDays ==>
      r.value[k] == Sample(ExtensionDay(k) * Calendar.SecondsPerDay, clim[k % 365])
  {
    if |clim| == 366 then Ok(ExtensionPrefix(clim, 2 * (|clim| - 1)))
    else Err("conflicting sizes for dimension 'Date'")
  }

  /** Both years of the extension have 365 days, so day `k` of the
      extension, the date `JanFirstPlus(2022, k)` (which is the date of day
      number `ExtensionDay(k)` by `Calendar.JanFirstPlusIsDateOf`), falls
      on day-of-year `k % 365 + 1`: every day receives the climatology of
      its own day-of-year. */
  lemma ExtensionDayOfYear(k: int)
    requires 0 <= k < ExtensionDays
    ensures Calendar.DayOfYear(Calendar.JanFirstPlus(ClimYear, k)) == k % 365 + 1
    ensures Calendar.JanFirstPlus(ClimYear, k).year == if k < 365 then 2022 else 2023
  {
    assert Calendar.DaysInYear(2022) == 365;
    if k < 365 {
      assert Calendar.JanFirstPlus(2022, k) == Calendar.FromDayOfYear(2022, k + 1);
      assert k % 365 == k;
    } else {
      assert Calendar.DaysInYear(2023) == 365;
      assert Calendar.JanFirstPlus(2022, k) == Calendar.JanFirstPlus(2023, k - 365);
      assert Calendar.JanFirstPlus(2023, k - 365) == Calendar.FromDayOfYear(2023, k - 364);
      assert k % 365 == k - 365;
    }
  }

  /** The last day of the extension that is merged, 2023-11-14, is day 682
      of the extension. */
  lemma LastMergedDay()
    ensures Calendar.JanFirstPlus(ClimYear, MergedExtensionDays - 1) == Calendar.Date(2023, 11, 14)
  {
    assert Calendar.DaysInYear(2022) == 365;
    assert Calendar.JanFirstPlus(2022, 682) == Calendar.JanFirstPlus(2023, 317);
    assert Calendar.DaysInYear(2023) == 365;
    assert Calendar.JanFirstPlus(2023, 317) == Calendar.FromDayOfYear(2023, 318);
    assert Calendar.FromDayOfYear(2023, 318) == Calendar.Date(2023, 11, 14);
  }

  /** The end of the merged part of the extension: 2023-11-14 23:59:59. */
  function GapEnd(): int {
    Calendar.EndOfDay(ExtensionDay(MergedExtensionDays - 1))
  }

  /** `extension.sel(Date=slice(None, "2023-11-14"))` keeps the first 683
      days of the extension, i.e. 2022-01-01..2023-11-14. */
  lemma MergedExtension(clim: seq<Option<real>>)
    requires |clim| == 366
    ensures Select(Extension(clim).value, None, GapEnd()) == Extension(clim).value[..MergedExtensionDays]
  {
    var e := Extension(clim).value;
    forall k | 0 <= k < |e| ensures e[k].time == (ExtensionDay(0) + k) * Calendar.SecondsPerDay {
      assert ExtensionDay(k) == ExtensionDay(0) + k;
    }
    SelectDays(e, ExtensionDay(0), MergedExtensionDays);
  }

  /** In a daily series whose sample `k` is at midnight of day `base + k`,
      the samples up to the end of day `base + n - 1` are the first `n`. */
  lemma SelectDays(e: seq<Sample>, base: int, n: int)
    requires 0 <= n <= |e|
    requires forall k :: 0 <= k < |e| ==> e[k].time == (base + k) * Calendar.SecondsPerDay
    ensures Select(e, None, Calendar.EndOfDay(base + n - 1)) == e[..n]
  {
    var hi := Calendar.EndOfDay(base + n - 1);
    var r := Select(e, None, hi);
    var want := e[..n];
    assert StrictlySorted(e) by {
      forall i, j | 0 <= i < j < |e| ensures e[i].time < e[j].time {
        assert (base + i) * Calendar.SecondsPerDay < (base + j) * Calendar.SecondsPerDay;
      }
    }
    assert StrictlySorted(want);
    SelectStrict(e, hi, r);
    forall x ensures x in r <==> x in want {
      if x in want {
        var k :| 0 <= k < |want| && want[k] == x;
        assert e[k] == x;
        assert x.time <= hi;
      }
      if x in r {
        var k :| 0 <= k < |e| && e[k] == x;
        assert k < n;
        assert want[k] == x;
      }
    }
    StrictlySortedUnique(r, want);
  }

  lemma SelectStrict(e: seq<Sample>, hi: int, r: seq<Sample>)
    requires StrictlySorted(e) && r == Select(e, None, hi)
    ensures StrictlySorted(r)
  {
    SelectSorted(e, None, hi);
    forall i, j | 0 <= i < j < |r| ensures r[i].time < r[j].time {
      assert r[i] in r && r[j] in r;
      var a :| 0 <= a < |e| && e[a] == r[i];
      var b :| 0 <= b < |e| && e[b] == r[j];
      if r[i].time == r[j].time {
        assert a == b;
        SelectInjective(e, None, hi, i, j);
      }
    }
  }

  /** A series selected from a strictly ascending one holds no sample
      twice. */
  lemma {:induction false} SelectInjective(e: seq<Sample>, lo: Option<int>, hi: int, i: int, j: int)
    requires StrictlySorted(e)
    requires 0 <= i < j < |Select(e, lo, hi)|
    ensures Select(e, lo, hi)[i] != Select(e, lo, hi)[j]
    decreases |e|
  {
    var init := e[..|e| - 1];
    var x := e[|e| - 1];
    var p := Select(init, lo, hi);
    assert StrictlySorted(init);
    if j < |p| {
      SelectInjective(init, lo, hi, i, j);
    } else {
      assert Select(e, lo, hi)[j] == x;
      assert Select(e, lo, hi)[i] == p[i];
      assert p[i] in init;
      var k :| 0 <= k < |init| && init[k] == p[i];
      assert e[k].time < x.time;
    }
  }

  // ---------------------------------------------------------------------
  // The files without timestamps

  /** A thermistor file as pandas reads it, one sequence per column. */
  datatype Table = Table(columns: seq<seq<Option<real>>>)

  /** `read_thermistor`: the temperature is column 1 of a 5-column file and
      column 2 of a 6-column file; any other width leaves `da` unbound. */
  function ReadColumn(t: Table): (r: Result<seq<Option<real>>>)
    ensures r.Ok? <==> |t.columns| == 5 || |t.columns| == 6
    ensures |t.columns| == 5 ==> r == Ok(t.columns[1])
    ensures |t.columns| == 6 ==> r == Ok(t.columns[2])
  {
    if |t.columns| == 5 then Ok(t.columns[1])
    else if |t.columns| == 6 then Ok(t.columns[2])
    else Err("local variable 'da' referenced before assignment")
  }

  /** The values of files `i..ManualLast`, concatenated in index order. */
  function ManualValues(files: map<int, Table>, i: int): (r: Result<seq<Option<real>>>)
    decreases ManualLast + 1 - i
  {
    if i > ManualLast then Ok([])
    else if i !in files then Err("No such file or directory")
    else
      var col := ReadColumn(files[i]);
      if col.Err? then Err(col.msg)
      else
        var rest := ManualValues(files, i + 1);
        if rest.Err? then rest else Ok(col.value + rest.value)
  }

  /** `col` stamped with the minutes `grid[t..]`. */
  function Stamp(col: seq<Option<real>>, grid: seq<int>, t: int): (r: seq<Sample>)
    requires 0 <= t && t + |col| <= |grid|
    ensures |r| == |col|
    ensures forall k :: 0 <= k < |col| ==> r[k] == Sample(grid[t + k], col[k])
    decreases |col|
  {
    if col == [] then []
    else Stamp(col[..|col| - 1], grid, t) + [Sample(grid[t + |col| - 1], col[|col| - 1])]
  }

  /** The cursor loop from file `i` with the cursor at `t`: each file takes
      the next `len` minutes of the grid; a file longer than what is left
      of the grid cannot be given its timestamps. */
  function StampFrom(files: map<int, Table>, grid: seq<int>, i: int, t: int): (r: Result<seq<Sample>>)
    requires 0 <= t <= |grid|
    decreases ManualLast + 1 - i
  {
    if i > ManualLast then Ok([])
    else if i !in files then Err("No such file or directory")
    else
      var col := ReadColumn(files[i]);
      if col.Err? then Err(col.msg)
      else if t + |col.value| > |grid| then Err("conflicting sizes for dimension 'Date'")
      else
        var rest := StampFrom(files, grid, i + 1, t + |col.value|);
        if rest.Err? then rest else Ok(Stamp(col.value, grid, t) + rest.value)
  }

  /** The files receive consecutive, non-overlapping slices of the minute
      grid: sample `k` of the result is value `k` of the concatenated files
      at minute `t + k`, and the loop fails exactly when a file is missing
      or unreadable or the grid runs out. */
  lemma {:induction false} StampFromSpec(files: map<int, Table>, grid: seq<int>, i: int, t: int)
    requires 0 <= t <= |grid|
    ensures var r := StampFrom(files, grid, i, t);
      var v := ManualValues(files, i);
      (r.Ok? <==> v.Ok? && t + |v.value| <= |grid|) &&
      (r.Ok? ==> |r.value| == |v.value| &&
                 forall k :: 0 <= k < |r.value| ==> r.value[k] == Sample(grid[t + k], v.value[k]))
    decreases ManualLast + 1 - i
  {
    if i <= ManualLast && i in files {
      var col := ReadColumn(files[i]);
      if col.Ok? {
        if t + |col.value| <= |grid| {
          StampFromSpec(files, grid, i + 1, t + |col.value|);
          var r := StampFrom(files, grid, i, t);
          var rest := StampFrom(files, grid, i + 1, t + |col.value|);
          var v := ManualValues(files, i);
          if r.Ok? {
            var head := Stamp(col.value, grid, t);
            forall k | 0 <= k < |r.value| ensures r.value[k] == Sample(grid[t + k], v.value[k]) {
              if k < |col.value| {
                assert r.value[k] == head[k];
              } else {
                assert r.value[k] == rest.value[k - |col.value|];
              }
            }
          }
        }
      }
    }
  }

  /** `rest` with `done` in front of its samples. */
  function Prefixed(done: seq<Sample>, rest: Result<seq<Sample>>): Result<seq<Sample>> {
    if rest.Err? then rest else Ok(done + rest.value)
  }

  /** The cursor loop of the job: read each file, give it the next minutes
      of the grid, concatenate, advance the cursor by its row count. */
  method StampManualFiles(files: map<int, Table>, grid: seq<int>) returns (r: Result<seq<Sample>>)
    ensures r == StampFrom(files, grid, ManualFirst, 0)
  {
    r := StampFilesFrom(files, grid, ManualFirst);
  }

  /** The cursor loop from file `first` on. */
  method StampFilesFrom(files: map<int, Table>, grid: seq<int>, first: int) returns (r: Result<seq<Sample>>)
    requires first <= ManualLast + 1
    ensures r == StampFrom(files, grid, first, 0)
  {
    ghost var goal := StampFrom(files, grid, first, 0);
    var da: seq<Sample> := [];
    var t := 0;
    var i := first;
    PrefixedEmpty(goal);
    while i <= ManualLast
      invariant first <= i <= ManualLast + 1
      invariant 0 <= t <= |grid| && t == |da|
      invariant goal == Prefixed(da, StampFrom(files, grid, i, t))
      decreases ManualLast + 1 - i
    {
      if i !in files {
        return Err("No such file or directory");
      }
      var col := ReadColumn(files[i]);
      if col.Err? {
        return Err(col.msg);
      }
      if t + |col.value| > |grid| {
        return Err("conflicting sizes for dimension 'Date'");
      }
      var piece := Stamp(col.value, grid, t);
      StampFromStep(files, grid, i, t, da);
      da := da + piece;
      t := t + |col.value|;
      i := i + 1;
    }
    assert StampFrom(files, grid, i, t) == Ok([]);
    assert da + [] == da;
    r := Ok(da);
  }

  lemma PrefixedEmpty(r: Result<seq<Sample>>)
    ensures Prefixed([], r) == r
  {
    if r.Ok? {
      assert [] + r.value == r.value;
    }
  }

  /** One pass of the cursor loop moves a file's stamped values from the
      part still to do into the part done. */
  lemma StampFromStep(files: map<int, Table>, grid: seq<int>, i: int, t: int, da: seq<Sample>)
    requires i <= ManualLast && i in files && ReadColumn(files[i]).Ok?
    requires 0 <= t && t + |ReadColumn(files[i]).value| <= |grid|
    ensures var n := |ReadColumn(files[i]).value|;
      Prefixed(da, StampFrom(files, grid, i, t))
        == Prefixed(da + Stamp(ReadColumn(files[i]).value, grid, t), StampFrom(files, grid, i + 1, t + n))
  {
    var col := ReadColumn(files[i]).value;
    var rest := StampFrom(files, grid, i + 1, t + |col|);
    if rest.Ok? {
      assert da + (Stamp(col, grid, t) + rest.value) == (da + Stamp(col, grid, t)) + rest.value;
    }
  }

  // ---------------------------------------------------------------------
  // The whole job

  /** The inputs of the job: the rows of the legacy spreadsheet and of the
      re-transferred thermistor spreadsheet, the files without timestamps
      and the minute grid deduced from their creation times. */
  datatype Sources = Sources(
    legacy: seq<Ingestion.Row>, station: seq<Ingestion.Row>,
    manual: map<int, Table>, grid: seq<int>)

  /** The library computations taken as given: the daily resampling mean,
      the derivative per 2-day unit of the forward-filled series, and the
      mean per day-of-year. */
  datatype InitLibrary = InitLibrary(
    daily: seq<Sample> -> seq<Sample>,
    rate: seq<Sample> -> seq<Option<real>>,
    climatology: seq<Sample> -> seq<Option<real>>)

  /** `xr.merge` of two series: the sorted union of their dates (the parts
      merged cover disjoint periods). */
  function Merge(a: seq<Sample>, b: seq<Sample>): (r: seq<Sample>)
    ensures StrictlySorted(r) && Times(r) == Times(a) + Times(b)
  {
    TimesAppend(a, b);
    SortDedupe(a + b)
  }

  /** The spreadsheet without its last row (`isel(index=slice(None, -1))`). */
  function DropLast(rows: seq<Ingestion.Row>): (r: seq<Ingestion.Row>)
    ensures |rows| > 0 ==> r == rows[..|rows| - 1]
    ensures |rows| == 0 ==> r == []
  {
    if rows == [] then [] else rows[..|rows| - 1]
  }

  /** The day of 2023-11-15 and of 2024-12-16, the span the re-transferred
      thermistor data is taken from. */
  function StationStart(): int {
    Calendar.DayNumber(Calendar.Date(2023, 11, 15)) * Calendar.SecondsPerDay
  }

  function StationEnd(): int {
    Calendar.EndOfDay(Calendar.DayNumber(Calendar.Date(2024, 12, 16)))
  }

  /** The combined series written by the job, or the error that stops it. */
  function Build(src: Sources, lib: InitLibrary): (r: Result<seq<Sample>>)
    ensures r.Ok? ==> StrictlySorted(r.value)
  {
    Assemble(src, lib, StampFrom(src.manual, src.grid, ManualFirst, 0))
  }

  /** Everything the job combines before the files without timestamps:
      the legacy daily series with the climatological gap fill, followed
      by the daily means of the re-transferred thermistor data. */
  function Prepare(src: Sources, lib: InitLibrary): (r: Result<seq<Sample>>)
    ensures r.Ok? ==> StrictlySorted(r.value)
  {
    var legacy := Ingestion.ParseRows(DropLast(src.legacy));
    if legacy.Err? then Err(legacy.msg)
    else
      var daily := lib.daily(SortByTime(legacy.value));
      var smooth := Smooth(daily, lib.rate(Ingestion.FFill(daily)));
      var ext := Extension(lib.climatology(smooth));
      if ext.Err? then Err(ext.msg)
      else
        var withGap := Merge(daily, Select(ext.value, None, GapEnd()));
        var station := Ingestion.ParseRows(src.station);
        if station.Err? then Err(station.msg)
        else
          var stationDaily := lib.daily(Select(SortByTime(station.value), Some(StationStart()), StationEnd()));
          if stationDaily == [] then Err("index 0 is out of bounds")
          else Ok(Merge(Select(withGap, None, stationDaily[0].time), stationDaily))
  }

  /** The job given the outcome of its cursor loop over the files without
      timestamps; the steps fail in the order the job takes them. */
  function Assemble(src: Sources, lib: InitLibrary, manual: Result<seq<Sample>>): (r: Result<seq<Sample>>)
    ensures r.Ok? ==> StrictlySorted(r.value)
  {
    var prepared := Prepare(src, lib);
    if prepared.Err? then prepared
    else if manual.Err? then Err(manual.msg)
    else Ok(Merge(prepared.value, lib.daily(manual.value)))
  }

  /** The directory the job writes into. */
  class Store {
    var files: set<string>
    var permanent: seq<Sample>
    var updated: seq<Sample>
    var next: string

    constructor(files0: set<string>)
      ensures files == files0 && permanent == [] && updated == [] && next == ""
    {
      files := files0;
      permanent := [];
      updated := [];
      next := "";
    }

    /** Runs the job. It refuses to run when the permanent store already
        exists, and it writes nothing unless every step succeeds; then the
        permanent and the updated store hold the same series and `next.i`
        holds 4860. */
    method Initialize(src: Sources, lib: InitLibrary) returns (r: Result<seq<Sample>>)
      modifies this
      ensures PermanentFile in old(files) ==> r.Err? && unchanged(this)
      ensures PermanentFile !in old(files) ==> r == Build(src, lib)
      ensures r.Err? ==> unchanged(this)
      ensures r.Ok? ==>
        files == old(files) + {PermanentFile, UpdatedFile, NextFile} &&
        permanent == r.value && updated == r.value && next == NextText
    {
      if PermanentFile in files {
        return Err(PermanentFile + " already exists, initial_Twater.py has already been executed!");
      }
      var manual := StampManualFiles(src.manual, src.grid);
      r := Assemble(src, lib, manual);
      if r.Err? {
        return;
      }
      Write(r.value);
    }

    /** Writes the permanent and the updated store with the same series,
        and `next.i`. */
    method Write(combined: seq<Sample>)
      modifies this
      ensures files == old(files) + {PermanentFile, UpdatedFile, NextFile}
      ensures permanent == combined && updated == combined && next == NextText
    {
      permanent := combined;
      updated := combined;
      next := NextText;
      files := files + {PermanentFile, UpdatedFile, NextFile};
    }
  }
}
