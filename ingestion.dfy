/** The daily thermistor job: it reads the numbered minute files of the
    water treatment plant from the index kept in `next.i`, screens the raw
    samples, appends daily means to the stored series and flips the
    `frozen` flag when the newest daily mean drops below 0.75 degrees. */
module Ingestion {
  import opened Wrappers
  import Calendar
  import Text
  import Numeric
  import opened Series

  /** One CSV row of a thermistor file: the timestamp of column 0 (already
      read as seconds since the epoch) and the raw text of column 2. */
  datatype Row = Row(time: int, cell: string)

  /** The thermistor directory: file `Longueuil.dat<i>.dat` is entry `i`;
      an index that is not a key has no file. */
  type Directory = map<int, seq<Row>>

  const FreezeThreshold: real := 0.75
  const MaxRatePerHour: real := 1.0
  const MaxTemperature: real := 30.0
  const MaxDeviation: real := 3.0

  // ---------------------------------------------------------------------
  // Reading one file

  /** The strings `read_csv` reads as missing by default; such a cell is
      already NaN when the comprehension sees it. */
  const MissingMarks: set<string> := {"", "#N/A", "#N/A N/A", "#NA", "-1.#IND", "-1.#QNAN", "-NaN", "-nan",
    "1.#IND", "1.#QNAN", "<NA>", "N/A", "NA", "NULL", "NaN", "None", "n/a", "nan", "null"}

  /** One cell of the comprehension in `read_thermistor_new`: a missing
      mark or `'Bad'` is missing, anything else goes through `float`,
      whose NaN is missing too. An infinite reading is refused like a
      non-number, since samples hold finite temperatures. */
  function ParseCell(cell: string): (r: Result<Option<real>>)
    ensures r == Ok(None) <==> cell == "Bad" || cell in MissingMarks || Text.ParseFloat(cell) == Some(Text.NaN)
    ensures r.Err? <==>
      cell != "Bad" && cell !in MissingMarks && (Text.ParseFloat(cell).None? || Text.ParseFloat(cell).value.Infinite?)
    ensures r.Ok? && r.value.Some? ==> Text.ParseFloat(cell) == Some(Text.Finite(r.value.value))
  {
    if cell == "Bad" || cell in MissingMarks then Ok(None)
    else
      var v := Text.ParseFloat(cell);
      if v.None? then Err("could not convert string to float")
      else
        match v.value
        case Finite(x) => Ok(Some(x))
        case NaN => Ok(None)
        case Infinite(_) => Err("infinite reading")
  }

  /** One row as a sample at its time. */
  function RowSample(row: Row): (r: Result<Sample>)
    ensures r.Ok? <==> ParseCell(row.cell).Ok?
    ensures r.Ok? ==> r.value == Sample(row.time, ParseCell(row.cell).value)
  {
    var cell := ParseCell(row.cell);
    if cell.Err? then Err(cell.msg) else Ok(Sample(row.time, cell.value))
  }

  /** The rows of a file as samples, in file order; a cell that is not a
      number makes the whole file fail with the first such cell's error. */
  function ParseRows(rows: seq<Row>): (r: Result<seq<Sample>>)
    ensures r.Ok? ==> |r.value| == |rows|
  {
    AllOk(seq(|rows|, i requires 0 <= i < |rows| => RowSample(rows[i])))
  }

  /** The rows parse exactly when every cell does, and then row `i` gives
      sample `i`. */
  lemma ParseRowsSpec(rows: seq<Row>)
    ensures ParseRows(rows).Ok? <==> forall i :: 0 <= i < |rows| ==> ParseCell(rows[i].cell).Ok?
    ensures ParseRows(rows).Ok? ==> forall i :: 0 <= i < |rows| ==>
      ParseRows(rows).value[i] == Sample(rows[i].time, ParseCell(rows[i].cell).value)
  {
    var rs := seq(|rows|, i requires 0 <= i < |rows| => RowSample(rows[i]));
    assert forall i :: 0 <= i < |rows| ==> rs[i] == RowSample(rows[i]);
  }

  /** `read_thermistor_new`: the parsed rows sorted by time. An empty file
      has no columns and raises, like a cell that is not a number. */
  function ReadThermistor(rows: seq<Row>): (r: Result<seq<Sample>>)
    ensures r.Ok? ==> |r.value| == |rows| && r.value != [] && Sorted(r.value)
  {
    if rows == [] then Err("No columns to parse from file")
    else
      var p := ParseRows(rows);
      if p.Err? then Err(p.msg) else Ok(SortByTime(p.value))
  }

  /** Every row of a file that reads appears in it at its time: as a
      missing sample when the cell is `'Bad'`, a missing mark or a NaN,
      otherwise with the number the cell spells. */
  lemma ReadThermistorRows(rows: seq<Row>, i: int)
    requires ReadThermistor(rows).Ok? && 0 <= i < |rows|
    ensures ParseCell(rows[i].cell).Ok?
    ensures Sample(rows[i].time, ParseCell(rows[i].cell).value) in ReadThermistor(rows).value
    ensures rows[i].cell == "Bad" ==> Sample(rows[i].time, None) in ReadThermistor(rows).value
  {
    ParseRowsSpec(rows);
    var p := ParseRows(rows).value;
    var r := ReadThermistor(rows).value;
    assert r == SortByTime(p);
    SortByTimePermutes(p);
    assert p[i] in multiset(p);
    assert p[i] in multiset(r);
  }

  /** A file fails to read exactly when it is empty or one of its cells
      is neither `'Bad'`, nor a missing mark, nor a finite number or NaN
      for `float`. */
  lemma ReadThermistorFails(rows: seq<Row>)
    ensures ReadThermistor(rows).Err? <==>
      rows == [] || exists i :: 0 <= i < |rows| && ParseCell(rows[i].cell).Err?
  {
    ParseRowsSpec(rows);
  }

  /** No missing mark, and not `'Bad'`, ends in a digit or a line break. */
  lemma NotMissing(cell: string)
    requires cell != [] && (Text.IsDigit(cell[|cell| - 1]) || cell[|cell| - 1] == '\n')
    ensures cell != "Bad" && cell !in MissingMarks
  {
  }

  /** A written temperature with white space around it reads as that
      temperature. */
  lemma PaddedCell(n: nat)
    ensures ParseCell(" " + Text.NatToString(n) + "\n") == Ok(Some(n as real))
  {
    var s := Text.NatToString(n);
    var cell := " " + s + "\n";
    assert Text.IsDigit(s[0]) && Text.IsDigit(s[|s| - 1]);
    NotMissing(cell);
    Text.PaddedText(" ", s, "\n");
    Text.DecimalOfNat(n);
  }

  /** A temperature in scientific notation reads as its value. */
  lemma ScientificCell(n: nat, e: int)
    ensures ParseCell(Text.NatToString(n) + "e" + Text.IntToString(e)) == Ok(Some(Text.Scale(n as real, e)))
  {
    var es := Text.IntToString(e);
    var cell := Text.NatToString(n) + "e" + es;
    assert cell[|cell| - 1] == es[|es| - 1];
    assert Text.IsDigit(es[|es| - 1]) by {
      if e < 0 {
        assert es == "-" + Text.NatToString(-e);
      }
      assert Text.AllDigits(Text.NatToString(if e < 0 then -e else e));
    }
    NotMissing(cell);
    Text.ScientificOfNat(n, e);
  }

  /** What reading each file of the directory gives. */
  type Reads = map<int, Result<seq<Sample>>>

  /** Every file that reads holds a non-empty sorted batch. */
  predicate WellRead(readings: Reads) {
    forall k :: k in readings && readings[k].Ok? ==> readings[k].value != [] && Sorted(readings[k].value)
  }

  /** `read_thermistor_new` applied to each file of the directory. */
  function ReadAll(files: Directory): (readings: Reads)
    ensures readings.Keys == files.Keys && WellRead(readings)
  {
    map k | k in files :: ReadThermistor(files[k])
  }

  lemma ReadAllAt(files: Directory, k: int)
    requires k in files
    ensures ReadAll(files)[k] == ReadThermistor(files[k])
  {
  }

  /** The stand-in for a file that fails to read: the previous batch one
      hour later, with every temperature missing. */
  function Shifted(prev: seq<Sample>): (r: seq<Sample>)
    ensures |r| == |prev|
    ensures forall i :: 0 <= i < |prev| ==>
      r[i].time == prev[i].time + Calendar.SecondsPerHour && r[i].temp.None?
    decreases |prev|
  {
    if prev == [] then []
    else Shifted(prev[..|prev| - 1]) + [Sample(prev[|prev| - 1].time + Calendar.SecondsPerHour, None)]
  }

  lemma ShiftedSorted(prev: seq<Sample>)
    requires Sorted(prev)
    ensures Sorted(Shifted(prev))
  {
  }

  function Last(s: seq<Sample>): Sample
    requires s != []
  {
    s[|s| - 1]
  }

  // ---------------------------------------------------------------------
  // The resume loop

  /** Indices at or after `i` that have a file. */
  function Remaining(readings: Reads, i: int): set<int> {
    set k | k in readings && k >= i
  }

  lemma RemainingShrinks(readings: Reads, i: int)
    requires i in readings
    ensures |Remaining(readings, i + 1)| < |Remaining(readings, i)|
  {
    assert Remaining(readings, i) == Remaining(readings, i + 1) + {i};
  }

  /** The batch of one loop iteration at an existing index: the file's
      rows when it reads, otherwise the previous batch shifted by an hour. */
  function Batch(read: Result<seq<Sample>>, tmp: Option<seq<Sample>>): (cur: seq<Sample>)
    requires read.Ok? ==> read.value != [] && Sorted(read.value)
    requires read.Err? ==> tmp.Some? && tmp.value != [] && Sorted(tmp.value)
    ensures cur != [] && Sorted(cur)
    ensures read.Ok? ==> cur == read.value
    ensures read.Err? ==> cur == Shifted(tmp.value)
  {
    if read.Ok? then read.value
    else
      ShiftedSorted(tmp.value);
      Shifted(tmp.value)
  }

  /** In a sorted batch every sample is at or before the last one. */
  lemma SortedUpToLast(s: seq<Sample>, limit: int)
    requires s != [] && Sorted(s) && Last(s).time <= limit
    ensures forall x :: x in s ==> x.time <= limit
  {
    forall x | x in s ensures x.time <= limit {
      var k :| 0 <= k < |s| && s[k] == x;
    }
  }

  /** The `while` loop of the job from index `i` on, `tmp` being the batch
      of the previous iteration (`None` in the first iteration, where
      `tmp` is not yet bound). It yields the samples it concatenates and
      the first index it does not consume, which becomes `next.i`. */
  /** The `NameError` of the `except` branch when no earlier batch exists. */
  const TmpUnbound: string := "name 'tmp' is not defined"

  function ResumeLoop(readings: Reads, i: int, tmp: Option<seq<Sample>>, limit: int): (r: Result<(seq<Sample>, int)>)
    requires WellRead(readings)
    requires tmp.Some? ==> tmp.value != [] && Sorted(tmp.value)
    ensures r.Err? ==> tmp.None? && i in readings && readings[i].Err? && r.msg == TmpUnbound
    decreases |Remaining(readings, i)|
  {
    if i !in readings then Ok(([], i))
    else
      var read := readings[i];
      if read.Err? && tmp.None? then Err(TmpUnbound)
      else
        var cur := Batch(read, tmp);
        if Last(cur).time <= limit then
          RemainingShrinks(readings, i);
          var rest := ResumeLoop(readings, i + 1, Some(cur), limit);
          Ok((cur + rest.value.0, rest.value.1))
        else Ok(([], i))
  }

  /** The loop consumes consecutive existing indices from `i` on, and the
      index it stops at either has no file or holds a file that reads and
      whose newest sample is after the limit (a file that does not read is
      replaced by the shifted previous batch, so it stops the loop only
      when that batch is past the limit). */
  lemma {:induction false} ResumeLoopIndices(readings: Reads, i: int, tmp: Option<seq<Sample>>, limit: int)
    requires WellRead(readings)
    requires tmp.Some? ==> tmp.value != [] && Sorted(tmp.value)
    requires ResumeLoop(readings, i, tmp, limit).Ok?
    ensures var n := ResumeLoop(readings, i, tmp, limit).value.1;
      i <= n && (forall k :: i <= k < n ==> k in readings) &&
      (n in readings && readings[n].Ok? ==> Last(readings[n].value).time > limit)
    decreases |Remaining(readings, i)|
  {
    if i in readings {
      var read := readings[i];
      var cur := Batch(read, tmp);
      if Last(cur).time <= limit {
        RemainingShrinks(readings, i);
        ResumeLoopIndices(readings, i + 1, Some(cur), limit);
      }
    }
  }

  /** Every sample the loop consumes is at or before the limit, i.e. no data
      from today is added by the loop. */
  lemma {:induction false} ResumeLoopBeforeLimit(readings: Reads, i: int, tmp: Option<seq<Sample>>, limit: int)
    requires WellRead(readings)
    requires tmp.Some? ==> tmp.value != [] && Sorted(tmp.value)
    requires ResumeLoop(readings, i, tmp, limit).Ok?
    ensures forall x :: x in ResumeLoop(readings, i, tmp, limit).value.0 ==> x.time <= limit
    decreases |Remaining(readings, i)|
  {
    if i in readings {
      var read := readings[i];
      var cur := Batch(read, tmp);
      if Last(cur).time <= limit {
        RemainingShrinks(readings, i);
        SortedUpToLast(cur, limit);
        ResumeLoopBeforeLimit(readings, i + 1, Some(cur), limit);
      }
    }
  }

  /** `rest` with `consumed` in front of its samples. */
  function Prepend(consumed: seq<Sample>, rest: Result<(seq<Sample>, int)>): Result<(seq<Sample>, int)> {
    if rest.Err? then rest else Ok((consumed + rest.value.0, rest.value.1))
  }

  lemma PrependEmpty(r: Result<(seq<Sample>, int)>)
    ensures Prepend([], r) == r
  {
    if r.Ok? {
      assert [] + r.value.0 == r.value.0;
    }
  }

  lemma PrependTwice(a: seq<Sample>, b: seq<Sample>, r: Result<(seq<Sample>, int)>)
    ensures Prepend(a, Prepend(b, r)) == Prepend(a + b, r)
  {
    if r.Ok? {
      assert a + (b + r.value.0) == (a + b) + r.value.0;
    }
  }

  /** One iteration of the loop that consumes the file at `i`. */
  lemma ResumeLoopStep(readings: Reads, i: int, tmp: Option<seq<Sample>>, limit: int)
    requires WellRead(readings)
    requires tmp.Some? ==> tmp.value != [] && Sorted(tmp.value)
    requires i in readings && (readings[i].Ok? || tmp.Some?)
    requires Last(Batch(readings[i], tmp)).time <= limit
    ensures ResumeLoop(readings, i, tmp, limit)
      == Prepend(Batch(readings[i], tmp), ResumeLoop(readings, i + 1, Some(Batch(readings[i], tmp)), limit))
  {
  }

  // ---------------------------------------------------------------------
  // Screening

  /** `ffill(dim="Date")`: a missing value takes the latest value before it. */
  function FFill(s: seq<Sample>): (r: seq<Sample>)
    ensures |r| == |s|
    ensures forall i :: 0 <= i < |s| ==> r[i].time == s[i].time
    ensures forall i :: 0 <= i < |s| && s[i].temp.Some? ==> r[i] == s[i]
    ensures forall i :: 0 < i < |s| && s[i].temp.None? ==> r[i].temp == r[i - 1].temp
    ensures |s| > 0 && s[0].temp.None? ==> r[0].temp.None?
    decreases |s|
  {
    if s == [] then []
    else
      var p := FFill(s[..|s| - 1]);
      var x := s[|s| - 1];
      if x.temp.Some? then p + [x]
      else p + [Sample(x.time, if p == [] then None else p[|p| - 1].temp)]
  }

  /** `dTdt_ok` at position `i`: the rate of change is below 1 degree per
      hour in absolute value; a NaN rate fails the test. */
  predicate RateOk(rate: seq<Option<real>>, i: int) {
    0 <= i < |rate| && rate[i].Some? && -MaxRatePerHour < rate[i].value < MaxRatePerHour
  }

  /** The first screening stage: rate and absolute-temperature tests. */
  function FirstStage(s: seq<Sample>, rate: seq<Option<real>>): (r: seq<Sample>)
    ensures |r| == |s|
    ensures forall i :: 0 <= i < |s| ==> r[i].time == s[i].time
    ensures forall i :: 0 <= i < |s| ==>
      (r[i].temp.Some? <==> s[i].temp.Some? && RateOk(rate, i) && s[i].temp.value < MaxTemperature)
    ensures forall i :: 0 <= i < |s| && r[i].temp.Some? ==> r[i] == s[i]
  {
    FirstStagePrefix(s, rate, |s|)
  }

  function FirstStageOne(s: seq<Sample>, rate: seq<Option<real>>, i: int): Sample
    requires 0 <= i < |s|
  {
    if s[i].temp.Some? && RateOk(rate, i) && s[i].temp.value < MaxTemperature then s[i]
    else Sample(s[i].time, None)
  }

  function FirstStagePrefix(s: seq<Sample>, rate: seq<Option<real>>, n: int): (r: seq<Sample>)
    requires 0 <= n <= |s|
    ensures |r| == n && forall i :: 0 <= i < n ==> r[i] == FirstStageOne(s, rate, i)
    decreases n
  {
    if n == 0 then [] else FirstStagePrefix(s, rate, n - 1) + [FirstStageOne(s, rate, n - 1)]
  }

  /** The values present on calendar day `d`. */
  function DayValues(s: seq<Sample>, d: int): (v: seq<real>)
    ensures forall k :: 0 <= k < |s| && s[k].temp.Some? && Calendar.DayOfTimestamp(s[k].time) == d ==> |v| > 0
    decreases |s|
  {
    if s == [] then []
    else
      var rest := DayValues(s[1..], d);
      assert forall k :: 1 <= k < |s| ==> s[k] == s[1..][k - 1];
      if s[0].temp.Some? && Calendar.DayOfTimestamp(s[0].time) == d then [s[0].temp.value] + rest
      else rest
  }

  /** The mean of day `d` (`groupby("year_month_day").mean`), NaN when the
      day holds no value. */
  function DayMean(s: seq<Sample>, d: int): Option<real> {
    var v := DayValues(s, d);
    if |v| == 0 then None else Some(Numeric.Mean(v))
  }

  /** The three screening tests of the job: a sample survives only with
      |dT/dt| < 1 per hour, T < 30 and a SIGNED deviation below 3 from the
      mean of its day after the first two tests. */
  function Screen(s: seq<Sample>, rate: seq<Option<real>>): (r: seq<Sample>)
    ensures |r| == |s|
    ensures forall i :: 0 <= i < |s| ==> r[i].time == s[i].time
    ensures forall i :: 0 <= i < |s| ==>
      (r[i].temp.Some? <==>
        s[i].temp.Some? && RateOk(rate, i) && s[i].temp.value < MaxTemperature &&
        s[i].temp.value - DayMean(FirstStage(s, rate), Calendar.DayOfTimestamp(s[i].time)).value < MaxDeviation)
    ensures forall i :: 0 <= i < |s| && r[i].temp.Some? ==> r[i] == s[i]
  {
    ScreenPrefix(s, FirstStage(s, rate), |s|)
  }

  /** The deviation test at position `i`, against the day means of `m`. */
  function ScreenOne(s: seq<Sample>, m: seq<Sample>, i: int): Sample
    requires 0 <= i < |s| == |m|
  {
    var mean := DayMean(m, Calendar.DayOfTimestamp(s[i].time));
    if m[i].temp.Some? && mean.Some? && m[i].temp.value - mean.value < MaxDeviation then m[i]
    else Sample(s[i].time, None)
  }

  function ScreenPrefix(s: seq<Sample>, m: seq<Sample>, n: int): (r: seq<Sample>)
    requires 0 <= n <= |s| == |m|
    ensures |r| == n && forall i :: 0 <= i < n ==> r[i] == ScreenOne(s, m, i)
    decreases n
  {
    if n == 0 then [] else ScreenPrefix(s, m, n - 1) + [ScreenOne(s, m, n - 1)]
  }

  /** The day mean exists for every sample that passes the first stage. */
  lemma DayMeanOfKept(s: seq<Sample>, rate: seq<Option<real>>, i: int)
    requires 0 <= i < |s| && FirstStage(s, rate)[i].temp.Some?
    ensures DayMean(FirstStage(s, rate), Calendar.DayOfTimestamp(s[i].time)).Some?
  {
  }

  /** A sample survives only if it lies below the ceiling of 30 degrees and
      less than 3 degrees above the mean of its day after the first stage. */
  lemma ScreenBounds(s: seq<Sample>, rate: seq<Option<real>>, i: int)
    requires 0 <= i < |s| && Screen(s, rate)[i].temp.Some?
    ensures Screen(s, rate)[i].temp.value < MaxTemperature
    ensures Screen(s, rate)[i].temp.value < DayMean(FirstStage(s, rate), Calendar.DayOfTimestamp(s[i].time)).value + MaxDeviation
  {
  }

  // ---------------------------------------------------------------------
  // The frozen state machine

  /** The newest daily value counts as frozen below 0.75 degrees; NaN does
      not. */
  predicate IsFreezing(x: Sample) {
    x.temp.Some? && x.temp.value < FreezeThreshold
  }

  /** The first 10 characters of the printed date of a timestamp. */
  function DateText(t: int): (s: string)
    ensures |s| <= 10
  {
    var full := Text.FormatDate(Calendar.DateOf(Calendar.DayOfTimestamp(t)));
    if |full| < 10 then full else full[..10]
  }

  /** The `frozen`/`frozenDate` pair after the newest daily value `last`:
      it moves from "False" to "True", recording the date, exactly when
      `last` is freezing; otherwise nothing is written. */
  function FreezeStep(frozen: string, frozenDate: string, last: Sample): (r: (string, string))
    ensures IsFreezing(last) && frozen == "False" ==> r == ("True", DateText(last.time))
    ensures !(IsFreezing(last) && frozen == "False") ==> r == (frozen, frozenDate)
  {
    if IsFreezing(last) && frozen == "False" then ("True", DateText(last.time)) else (frozen, frozenDate)
  }

  // ---------------------------------------------------------------------
  // One run of the job

  /** What the job leaves on disk: the daily series, `next.i`, the
      `frozen` and `frozenDate` files and the `updated` marker. */
  datatype StationState = StationState(
    store: seq<Sample>, nextIndex: int, frozen: string, frozenDate: string, updated: string)

  datatype Outcome = NoFullDay | Updated | Crash(reason: string)

  /** The library computations the model takes as given: the derivative of
      the forward-filled raw series in degrees per hour, and the gap
      interpolation followed by the daily resampling mean. */
  datatype Library = Library(
    differentiate: seq<Sample> -> seq<Option<real>>,
    dailyMeans: seq<Sample> -> seq<Sample>)

  /** Yesterday 23:59:59, for `today` a day number. */
  function Yesterday(today: int): int {
    Calendar.EndOfDay(today - 1)
  }

  /** At least one complete day exists after the newest stored day
      (`tds > 0`). */
  predicate GateOpen(store: seq<Sample>, today: int)
    requires store != []
  {
    Last(store).time + Calendar.SecondsPerDay < Yesterday(today)
  }

  /** Everything after the loop: merge the raw batch, screen it, append
      the daily means and update the frozen flag. */
  function Finish(st: StationState, batch: seq<Sample>, next: int, lib: Library): (r: StationState)
    requires st.store != []
    ensures r.nextIndex == next && r.updated == "True"
    ensures StrictlySorted(r.store) && r.store != []
    ensures (r.frozen, r.frozenDate) == FreezeStep(st.frozen, st.frozenDate, Last(r.store))
  {
    var added := DailyMeans(batch, lib);
    var newStore := SortDedupe(st.store + added);
    TimesAppend(st.store, added);
    assert st.store[0].time in Times(newStore);
    var fz := FreezeStep(st.frozen, st.frozenDate, Last(newStore));
    StationState(newStore, next, fz.0, fz.1, "True")
  }

  /** The daily means a batch contributes: the batch is merged, forward
      filled for the derivative, screened, interpolated and resampled. */
  function DailyMeans(batch: seq<Sample>, lib: Library): seq<Sample> {
    var merged := SortDedupe(batch);
    lib.dailyMeans(Screen(merged, lib.differentiate(FFill(merged))))
  }

  lemma FinishStore(st: StationState, batch: seq<Sample>, next: int, lib: Library)
    requires st.store != []
    ensures Finish(st, batch, next, lib).store == SortDedupe(st.store + DailyMeans(batch, lib))
  {
  }

  /** What the reading part of the job yields. */
  datatype Collected = NothingNew | Failed(reason: string) | Batches(batch: seq<Sample>, next: int)

  /** The reading part of the job: the gate, the file at `next.i` (read
      outside the `try`), then the loop. */
  function Collect(st: StationState, today: int, readings: Reads): (c: Collected)
    requires WellRead(readings)
    ensures c.Batches? ==> st.store != []
  {
    if st.store == [] then Failed("index -1 is out of bounds")
    else if !GateOpen(st.store, today) then NothingNew
    else if st.nextIndex !in readings then Failed("no such file")
    else Joined(readings[st.nextIndex], ResumeLoop(readings, st.nextIndex + 1, None, Yesterday(today)))
  }

  /** The file at `next.i` followed by the loop: the first failure, or
      the rows of both with the index the loop stops at. */
  function Joined(first: Result<seq<Sample>>, loop: Result<(seq<Sample>, int)>): Collected {
    if first.Err? then Failed(first.msg)
    else if loop.Err? then Failed(loop.msg)
    else Batches(first.value + loop.value.0, loop.value.1)
  }

  /** `differentiate` (`np.gradient`) needs at least two samples. */
  const GradientError: string := "Shape of array too small to calculate a numerical gradient"

  /** What follows the loop: `next.i` is written first, then the merged
      batch is differentiated, which raises when it holds fewer than two
      distinct times; only then are the store and the flags rewritten. */
  function AfterLoop(st: StationState, batch: seq<Sample>, next: int, lib: Library): (r: (Outcome, StationState))
    requires st.store != []
    ensures r.1.nextIndex == next
    ensures r.0 != Updated <==> |SortDedupe(batch)| < 2
    ensures r.0 != Updated ==> r.0 == Crash(GradientError) && r.1 == st.(nextIndex := next)
    ensures r.0 == Updated ==> r.1 == Finish(st, batch, next, lib)
  {
    if |SortDedupe(batch)| < 2 then (Crash(GradientError), st.(nextIndex := next))
    else (Updated, Finish(st, batch, next, lib))
  }

  /** One run of the job on day `today`. A run that stops before the
      update leaves the store, the flags and the marker as they were;
      only a batch too short to differentiate has `next.i` written. */
  function Run(st: StationState, today: int, files: Directory, lib: Library): (r: (Outcome, StationState))
    ensures r.0 != Updated ==> r.1.(nextIndex := st.nextIndex) == st
    ensures r.0 == NoFullDay ==> r.1 == st
    ensures r.0 != Updated && r.1 != st ==>
      Collect(st, today, ReadAll(files)).Batches? && r.1.nextIndex == Collect(st, today, ReadAll(files)).next
  {
    match Collect(st, today, ReadAll(files))
    case NothingNew => (NoFullDay, st)
    case Failed(msg) => (Crash(msg), st)
    case Batches(batch, next) => AfterLoop(st, batch, next, lib)
  }

  /** A batch with a single time crashes the job after `next.i` was
      advanced: the store is not updated, and the files read are skipped
      on every later run. */
  lemma ShortBatchSkipsFiles(st: StationState, today: int, files: Directory, lib: Library)
    requires Collect(st, today, ReadAll(files)).Batches?
    requires |SortDedupe(Collect(st, today, ReadAll(files)).batch)| < 2
    ensures var r := Run(st, today, files, lib);
      r.0 == Crash(GradientError) && r.1.store == st.store && r.1.updated == st.updated
      && r.1.nextIndex > st.nextIndex
  {
    NextIndexAdvances(st, today, ReadAll(files));
  }

  /** Without a complete new day the job reads no file and changes
      nothing, whatever the directory holds. */
  lemma GateClosedChangesNothing(st: StationState, today: int, files: Directory, lib: Library)
    requires st.store != [] && !GateOpen(st.store, today)
    ensures Run(st, today, files, lib) == (NoFullDay, st)
  {
  }

  /** After an update `next.i` has strictly grown, every index it passed
      over has a file, and the loop stopped at a missing file or at one
      whose newest sample is later than yesterday 23:59:59. */
  lemma NextIndexAdvances(st: StationState, today: int, readings: Reads)
    requires WellRead(readings) && Collect(st, today, readings).Batches?
    ensures var n := Collect(st, today, readings).next;
      st.nextIndex < n &&
      (forall k :: st.nextIndex <= k < n ==> k in readings) &&
      (n in readings && readings[n].Ok? ==> Last(readings[n].value).time > Yesterday(today))
  {
    var loop := ResumeLoop(readings, st.nextIndex + 1, None, Yesterday(today));
    var n := loop.value.1;
    assert Collect(st, today, readings).next == n;
    ResumeLoopIndices(readings, st.nextIndex + 1, None, Yesterday(today));
    forall k | st.nextIndex <= k < n ensures k in readings {
      if k > st.nextIndex {
        assert st.nextIndex + 1 <= k < n;
      }
    }
  }

  /** A run can only crash on the store, on the file at `next.i`, or on the
      file right after it when that one does not read (the fallback then
      refers to a batch that does not exist yet). */
  lemma CrashCauses(st: StationState, today: int, readings: Reads)
    requires WellRead(readings) && Collect(st, today, readings).Failed?
    ensures st.store == [] || st.nextIndex !in readings || readings[st.nextIndex].Err? ||
      (st.nextIndex + 1 in readings && readings[st.nextIndex + 1].Err?)
  {
  }

  /** The rewritten store is ascending without duplicate days, and every
      day it held before keeps its stored value. */
  lemma StoreMerge(st: StationState, batch: seq<Sample>, next: int, lib: Library, i: int)
    requires StrictlySorted(st.store) && 0 <= i < |st.store|
    ensures StrictlySorted(Finish(st, batch, next, lib).store)
    ensures st.store[i] in Finish(st, batch, next, lib).store
  {
    FinishStore(st, batch, next, lib);
    MergeKeepsStored(st.store, DailyMeans(batch, lib), i);
  }

  /** The flag only moves from "False" to "True", `frozenDate` is written
      only in that step, and then it holds the newest stored day. */
  lemma FrozenOneWay(st: StationState, today: int, files: Directory, lib: Library)
    ensures var r := Run(st, today, files, lib).1;
      (r.frozen != st.frozen || r.frozenDate != st.frozenDate) ==>
        st.frozen == "False" && r.frozen == "True" &&
        IsFreezing(Last(r.store)) && r.frozenDate == DateText(Last(r.store).time)
  {
  }

  /** One day of input to the job. */
  datatype Day = Day(today: int, files: Directory, lib: Library)

  function RunAll(st: StationState, days: seq<Day>): StationState
    decreases |days|
  {
    if days == [] then st
    else RunAll(Run(st, days[0].today, days[0].files, days[0].lib).1, days[1..])
  }

  /** Once frozen, the daily job never unfreezes the river, and the
      recorded freeze-up date stays as it was. */
  lemma {:induction false} FrozenSticks(st: StationState, days: seq<Day>)
    requires st.frozen == "True"
    ensures RunAll(st, days).frozen == "True" && RunAll(st, days).frozenDate == st.frozenDate
    decreases |days|
  {
    if days != [] {
      var next := Run(st, days[0].today, days[0].files, days[0].lib).1;
      FrozenOneWay(st, days[0].today, days[0].files, days[0].lib);
      FrozenSticks(next, days[1..]);
    }
  }

  // ---------------------------------------------------------------------
  // The job as a stateful object

  /** The files the job reads and rewrites. */
  class Station {
    var store: seq<Sample>
    var nextIndex: int
    var frozen: string
    var frozenDate: string
    var updated: string

    function State(): StationState
      reads this
    {
      StationState(store, nextIndex, frozen, frozenDate, updated)
    }

    constructor(s: StationState)
      ensures State() == s
    {
      store := s.store;
      nextIndex := s.nextIndex;
      frozen := s.frozen;
      frozenDate := s.frozenDate;
      updated := s.updated;
    }

    /** Runs the job once on day `today`. */
    method Ingest(today: int, files: Directory, lib: Library) returns (outcome: Outcome)
      modifies this
      ensures (outcome, State()) == Run(old(State()), today, files, lib)
    {
      var c := Gather(State(), today, files);
      match c
      case NothingNew =>
        outcome := NoFullDay;
      case Failed(msg) =>
        outcome := Crash(msg);
      case Batches(batch, next) =>
        var st := State();
        nextIndex := next;
        if |SortDedupe(batch)| < 2 {
          outcome := Crash(GradientError);
        } else {
          SetState(Finish(st, batch, next, lib));
          outcome := Updated;
        }
    }

    /** Rewrites the files of the job. */
    method SetState(st: StationState)
      modifies this
      ensures State() == st
    {
      store := st.store;
      nextIndex := st.nextIndex;
      frozen := st.frozen;
      frozenDate := st.frozenDate;
      updated := st.updated;
    }
  }

  /** The reading part of the job: the gate, the file at `next.i`, then
      the loop over the following files. */
  method Gather(st: StationState, today: int, files: Directory) returns (c: Collected)
    ensures c == Collect(st, today, ReadAll(files))
  {
    if st.store == [] {
      return Failed("index -1 is out of bounds");
    }
    if !GateOpen(st.store, today) {
      return NothingNew;
    }
    c := GatherFiles(st, today, files);
  }

  /** `Gather` once the gate is open. */
  method GatherFiles(st: StationState, today: int, files: Directory) returns (c: Collected)
    requires st.store != [] && GateOpen(st.store, today)
    ensures c == Collect(st, today, ReadAll(files))
  {
    ghost var readings := ReadAll(files);
    if st.nextIndex !in files {
      assert st.nextIndex !in readings;
      return Failed("no such file");
    }
    var first := ReadThermistor(files[st.nextIndex]);
    ReadAllAt(files, st.nextIndex);
    CollectOpen(st, today, readings);
    if first.Err? {
      return Failed(first.msg);
    }
    var loop := ReadBatches(files, st.nextIndex + 1, Yesterday(today));
    c := Joined(first, loop);
  }

  /** With the gate open and the file at `next.i` present, the job reads
      that file and then runs the loop from the index after it. */
  lemma CollectOpen(st: StationState, today: int, readings: Reads)
    requires WellRead(readings)
    requires st.store != [] && GateOpen(st.store, today) && st.nextIndex in readings
    ensures Collect(st, today, readings)
      == Joined(readings[st.nextIndex], ResumeLoop(readings, st.nextIndex + 1, None, Yesterday(today)))
  {
  }

  /** The `while` loop of the job: from index `start`, consume files while
      they exist and end no later than `limit`; a file that does not read
      becomes the previous batch shifted by an hour. */
  method ReadBatches(files: Directory, start: int, limit: int) returns (r: Result<(seq<Sample>, int)>)
    ensures r == ResumeLoop(ReadAll(files), start, None, limit)
  {
    ghost var readings := ReadAll(files);
    var i := start;
    var consumed: seq<Sample> := [];
    var tmp: Option<seq<Sample>> := None;
    PrependEmpty(ResumeLoop(readings, start, None, limit));
    var failed := false;
    var running := true;
    while running
      invariant tmp.Some? ==> tmp.value != [] && Sorted(tmp.value)
      invariant running ==> !failed
      invariant running ==> ResumeLoop(readings, start, None, limit) == Prepend(consumed, ResumeLoop(readings, i, tmp, limit))
      invariant !running && failed ==> ResumeLoop(readings, start, None, limit) == Err(TmpUnbound)
      invariant !running && !failed ==> ResumeLoop(readings, start, None, limit) == Ok((consumed, i))
      decreases |Remaining(readings, i)|, running
    {
      if i !in files {
        assert consumed + [] == consumed;
        running := false;
      } else {
        var read := ReadThermistor(files[i]);
        ReadAllAt(files, i);
        if read.Err? && tmp.None? {
          assert ResumeLoop(readings, i, tmp, limit) == Err(TmpUnbound);
          failed := true;
          running := false;
        } else {
          var cur := Batch(read, tmp);
          if Last(cur).time <= limit {
            RemainingShrinks(readings, i);
            ResumeLoopStep(readings, i, tmp, limit);
            PrependTwice(consumed, cur, ResumeLoop(readings, i + 1, Some(cur), limit));
            consumed := consumed + cur;
            i := i + 1;
          } else {
            assert consumed + [] == consumed;
            running := false;
          }
          tmp := Some(cur);
        }
      }
    }
    if failed {
      r := Err(TmpUnbound);
    } else {
      r := Ok((consumed, i));
    }
  }
}
