/** The weekly forecast job (`auto/weekly_forecast.py`): the predicted
    freeze-up day-of-year of the ensemble mean and of every member,
    appended to the season's log `<season>FUDweekly` as rows
    `issued,number,FUD`, and the marker "True" once the run completes.
    The fitted regression is an input function from the three predictor
    values, in the order of `Variables`, to the predicted day-of-year. */
module WeeklyForecast {
  import opened Wrappers
  import opened Calendar
  import opened Text
  import opened Predictors
  import opened Numeric

  // ---------------------------------------------------------------------
  // The day-of-year of a prediction

  /** The date the job prints for prediction `f` in season `y`, as the
      source computes it: Jan 1 plus `around(f - 1)` days in a common year,
      plus `around(f)` days in a leap year, and Jan 1 of `y + 1` plus
      `around(f - 366)` days past day 365. */
  function ForecastDateAsWritten(y: int, f: real): (d: Date)
    ensures ValidDate(d)
  {
    if f > 365.0 then JanFirstPlus(y + 1, RoundHalfEven(f - 366.0))
    else if IsLeap(y) then JanFirstPlus(y, RoundHalfEven(f))
    else JanFirstPlus(y, RoundHalfEven(f - 1.0))
  }

  /** The date of prediction `f`, rounding the prediction once: day
      `around(f)` of a 365-day year, the leap day skipped, and days past
      365 in the following year. */
  function ForecastDate(y: int, f: real): (d: Date)
    ensures ValidDate(d)
    ensures f <= 365.0 && !IsLeap(y) && 1 <= RoundHalfEven(f) ==> d == FromDayOfYear(y, RoundHalfEven(f))
    ensures f <= 365.0 && IsLeap(y) && 0 <= RoundHalfEven(f) ==> d == FromDayOfYear(y, RoundHalfEven(f) + 1)
    ensures f > 365.0 && 366 <= RoundHalfEven(f) <= 365 + DaysInYear(y + 1) ==>
      d == FromDayOfYear(y + 1, RoundHalfEven(f) - 365)
  {
    if f > 365.0 then JanFirstPlus(y + 1, RoundHalfEven(f) - 366)
    else if IsLeap(y) then JanFirstPlus(y, RoundHalfEven(f))
    else JanFirstPlus(y, RoundHalfEven(f) - 1)
  }

  /** Away from ties the source's date is the once-rounded date. */
  lemma AsWrittenAgrees(y: int, f: real)
    requires !IsTie(f)
    ensures ForecastDateAsWritten(y, f) == ForecastDate(y, f)
  {
    RoundShift(f, 366);
    RoundShift(f, 1);
  }

  /** From March on, day `n + 1` of a leap year falls on the calendar day
      of day `n` of a common year. */
  lemma LeapShift(yl: int, yn: int, n: int)
    requires IsLeap(yl) && !IsLeap(yn) && 60 <= n <= 365
    ensures FromDayOfYear(yl, n + 1).month == FromDayOfYear(yn, n).month
    ensures FromDayOfYear(yl, n + 1).day == FromDayOfYear(yn, n).day
  {
    var d := FromDayOfYear(yn, n);
    assert DaysBeforeMonth(yn, d.month) + d.day == n;
    var e := Date(yl, d.month, d.day);
    assert ValidDate(e);
    assert DayOfYear(e) == n + 1;
    FromDayOfYearOfDate(e);
  }

  /** Every year counts as 365 days: from March on, a prediction gives the
      same calendar day in leap and common years. */
  lemma YearBlind(yl: int, yn: int, f: real)
    requires IsLeap(yl) && !IsLeap(yn) && f <= 365.0 && 60 <= RoundHalfEven(f)
    ensures ForecastDate(yl, f).month == ForecastDate(yn, f).month
    ensures ForecastDate(yl, f).day == ForecastDate(yn, f).day
  {
    LeapShift(yl, yn, RoundHalfEven(f));
  }

  /** The prediction 359.5: the log says day 360, but the source's date
      in a common year is day 359, and a leap year gets a different
      calendar day. */
  lemma TieBreaksYearBlindness(yl: int, yn: int)
    requires IsLeap(yl) && !IsLeap(yn)
    ensures RoundHalfEven(359.5) == 360
    ensures ForecastDateAsWritten(yn, 359.5).year == yn && DayOfYear(ForecastDateAsWritten(yn, 359.5)) == 359
    ensures !(ForecastDateAsWritten(yn, 359.5).month == ForecastDateAsWritten(yl, 359.5).month
              && ForecastDateAsWritten(yn, 359.5).day == ForecastDateAsWritten(yl, 359.5).day)
  {
    RoundUnique(359.5, 360);
    RoundUnique(358.5, 358);
    var a := ForecastDateAsWritten(yn, 359.5);
    var b := ForecastDateAsWritten(yl, 359.5);
    assert a == FromDayOfYear(yn, 359);
    assert b == FromDayOfYear(yl, 361);
    LeapShift(yl, yn, 360);
    var c := FromDayOfYear(yn, 360);
    assert DayOfYear(a) != DayOfYear(c);
  }

  /** 2023 and 2024 are such a pair. */
  lemma TieIn2023And2024()
    ensures DayOfYear(ForecastDateAsWritten(2023, 359.5)) == 359
    ensures !(ForecastDateAsWritten(2023, 359.5).month == ForecastDateAsWritten(2024, 359.5).month
              && ForecastDateAsWritten(2023, 359.5).day == ForecastDateAsWritten(2024, 359.5).day)
  {
    TieBreaksYearBlindness(2024, 2023);
  }

  // ---------------------------------------------------------------------
  // The log file

  const Header: string := "time,number,FUD\n"
  const NotWritten: string := "Output of ensemble mean forecast not written, exiting."

  /** One row: the issue date, the member number (0 for the ensemble
      mean) and the rounded predicted day-of-year. */
  datatype LogRow = LogRow(issued: string, number: nat, fud: int)

  /** A field that can be written unquoted between commas and newlines. */
  predicate PlainField(s: string) {
    ',' !in s && '\n' !in s
  }

  predicate PlainRows(rows: seq<LogRow>) {
    forall i :: 0 <= i < |rows| ==> PlainField(rows[i].issued)
  }

  function RowText(r: LogRow): string {
    r.issued + "," + NatToString(r.number) + "," + IntToString(r.fud)
  }

  function RowTexts(rows: seq<LogRow>): (ts: seq<string>)
    ensures |ts| == |rows| && forall i :: 0 <= i < |rows| ==> ts[i] == RowText(rows[i])
  {
    seq(|rows|, i requires 0 <= i < |rows| => RowText(rows[i]))
  }

  /** The file after writing `rows` to a log that does (`present`) or does
      not exist: appended as `\n<row>`, or created with the header. */
  function Appended(present: bool, content: string, rows: seq<LogRow>): string {
    if rows == [] then content
    else (if present then content + "\n" else Header) + Join(RowTexts(rows), '\n')
  }

  /** A log holding exactly `rows`. */
  function LogText(rows: seq<LogRow>): string {
    Appended(false, "", rows)
  }

  /** A row read back: three comma-separated fields, the last two numbers. */
  function ParseRow(line: string): Option<LogRow> {
    var parts := Split(line, ',');
    if |parts| != 3 then None
    else
      var n := ParseNat(parts[1]);
      var v := ParseInt(parts[2]);
      if n.None? || v.None? then None else Some(LogRow(parts[0], n.value, v.value))
  }

  function ParseRows(lines: seq<string>): Option<seq<LogRow>> {
    if lines == [] then Some([])
    else
      var r := ParseRow(lines[0]);
      var rest := ParseRows(lines[1..]);
      if r.None? || rest.None? then None else Some([r.value] + rest.value)
  }

  /** The log read back: the header, then one row per line. */
  function ParseLog(s: string): Option<seq<LogRow>> {
    if |s| >= |Header| && s[..|Header|] == Header then ParseRows(Split(s[|Header|..], '\n'))
    else None
  }

  lemma NatToStringPlain(n: nat)
    ensures PlainField(NatToString(n))
  {
    var s := NatToString(n);
    assert AllDigits(s);
  }

  /** A row reads back as itself and is a single line. */
  lemma RowRoundTrip(r: LogRow)
    requires PlainField(r.issued)
    ensures ParseRow(RowText(r)) == Some(r)
    ensures '\n' !in RowText(r)
  {
    var parts := [r.issued, NatToString(r.number), IntToString(r.fud)];
    NatToStringPlain(r.number);
    IntToStringChars(r.fud);
    assert parts[1..] == [NatToString(r.number), IntToString(r.fud)];
    assert parts[1..][1..] == [IntToString(r.fud)];
    assert Join(parts[1..], ',') == NatToString(r.number) + [','] + IntToString(r.fud);
    assert Join(parts, ',') == r.issued + [','] + (NatToString(r.number) + [','] + IntToString(r.fud));
    assert Join(parts, ',') == RowText(r);
    SplitJoin(parts, ',');
    NatRoundTrip(r.number);
    IntRoundTrip(r.fud);
  }

  lemma {:induction false} ParseRowsRoundTrip(rows: seq<LogRow>)
    requires PlainRows(rows)
    ensures ParseRows(RowTexts(rows)) == Some(rows)
    decreases |rows|
  {
    if rows != [] {
      RowRoundTrip(rows[0]);
      assert RowTexts(rows)[1..] == RowTexts(rows[1..]);
      ParseRowsRoundTrip(rows[1..]);
      assert [rows[0]] + rows[1..] == rows;
    }
  }

  /** Reading a written log gives back its rows, in order. */
  lemma LogRoundTrip(rows: seq<LogRow>)
    requires rows != [] && PlainRows(rows)
    ensures ParseLog(LogText(rows)) == Some(rows)
  {
    var body := Join(RowTexts(rows), '\n');
    assert LogText(rows) == Header + body;
    assert (Header + body)[..|Header|] == Header;
    assert (Header + body)[|Header|..] == body;
    forall i | 0 <= i < |rows| ensures '\n' !in RowTexts(rows)[i] {
      RowRoundTrip(rows[i]);
    }
    SplitJoin(RowTexts(rows), '\n');
    ParseRowsRoundTrip(rows);
  }

  /** Writing one more row extends the file by `\n<row>` once it exists. */
  lemma AppendedSnoc(present: bool, content: string, rows: seq<LogRow>, r: LogRow)
    requires rows != []
    ensures Appended(present, content, rows + [r]) == Appended(present, content, rows) + "\n" + RowText(r)
  {
    var ts := RowTexts(rows);
    var t := RowText(r);
    assert RowTexts(rows + [r]) == ts + [t];
    JoinSnoc(ts, '\n', t);
    var pre := if present then content + "\n" else Header;
    var j := Join(ts, '\n');
    assert Appended(present, content, rows + [r]) == pre + (j + "\n" + t);
    ConcatAssoc(pre, j, "\n", t);
  }

  lemma ConcatAssoc<T>(a: seq<T>, b: seq<T>, c: seq<T>, d: seq<T>)
    ensures a + (b + c + d) == (a + b) + c + d
  {
  }

  /** Writing one row to a log that exists appends it to the rows written
      so far. */
  lemma AppendedGrows(content: string, rows: seq<LogRow>, r: LogRow)
    ensures Appended(true, Appended(true, content, rows), [r]) == Appended(true, content, rows + [r])
  {
    assert RowTexts([r]) == [RowText(r)];
    if rows != [] {
      AppendedSnoc(true, content, rows, r);
    } else {
      assert rows + [r] == [r];
    }
  }

  /** Appending to a log of `rows` gives the log of all rows, and keeps
      the old text as a prefix. */
  lemma AppendedToLog(rows: seq<LogRow>, more: seq<LogRow>)
    requires rows != []
    ensures Appended(true, LogText(rows), more) == LogText(rows + more)
    ensures LogText(rows) <= LogText(rows + more)
    decreases |more|
  {
    if more == [] {
      assert rows + more == rows;
    } else {
      var init := more[..|more| - 1];
      var last := more[|more| - 1];
      assert more == init + [last];
      assert rows + more == (rows + init) + [last];
      AppendedToLog(rows, init);
      AppendedSnoc(false, "", rows + init, last);
      if init == [] {
        assert Appended(true, LogText(rows), more) == LogText(rows) + "\n" + RowText(last);
        AppendedSnoc(false, "", rows, last);
      } else {
        AppendedSnoc(true, LogText(rows), init, last);
      }
    }
  }

  /** A log this job created and appended to reads back as all the rows
      written to it, in order. */
  lemma LogReadsBack(present: bool, content: string, rows: seq<LogRow>, more: seq<LogRow>)
    requires more != [] && PlainRows(more)
    requires present ==> rows != [] && PlainRows(rows) && content == LogText(rows)
    ensures ParseLog(Appended(present, content, more)) == Some((if present then rows else []) + more)
  {
    if present {
      AppendedToLog(rows, more);
      LogRoundTrip(rows + more);
    } else {
      assert [] + more == more;
      LogRoundTrip(more);
    }
  }

  /** The file `<season>FUDweekly`, present or not. */
  class ForecastLog {
    const name: string
    var present: bool
    var content: string

    constructor(name: string, present: bool, content: string)
      ensures this.name == name && this.present == present && this.content == content
    {
      this.name := name;
      this.present := present;
      this.content := content;
    }

    /** Opens the file for appending and writes one row. */
    method Write(r: LogRow)
      modifies this
      ensures present
      ensures content == Appended(old(present), old(content), [r])
    {
      if present {
        content := content + "\n" + RowText(r);
      } else {
        content := Header + RowText(r);
        present := true;
      }
    }
  }

  // ---------------------------------------------------------------------
  // Inputs and rows of one run

  const HasNaN: string := "Input contains NaN."
  const OutOfBounds: string := "index out of bounds"

  /** The value a predictor contributes to member `n` (a value without
      members is the same for every member). */
  function Input(val: Value, n: nat): (r: Result<real>)
    ensures val.Scalar? ==> r == Ok(val.x)
    ensures val.Members? && n < |val.xs| ==> r == Ok(val.xs[n])
    ensures val.Missing? ==> r.Err?
  {
    match val
    case Scalar(x) => Ok(x)
    case Members(xs) => if n < |xs| then Ok(xs[n]) else Err(OutOfBounds)
    case Missing => Err(HasNaN)
  }

  /** The values under `keys`, in order, for member `n`. */
  function Inputs(vars: Vars, keys: seq<string>, n: nat): (r: Result<seq<real>>)
    ensures r.Ok? <==> forall i :: 0 <= i < |keys| ==> keys[i] in vars && Input(vars[keys[i]], n).Ok?
    ensures r.Ok? ==>
      |r.value| == |keys|
      && forall i :: 0 <= i < |keys| ==> r.value[i] == Input(vars[keys[i]], n).value
    decreases |keys|
  {
    if keys == [] then Ok([])
    else if keys[0] !in vars then Err(keys[0] + " not found")
    else
      var x := Input(vars[keys[0]], n);
      var rest := Inputs(vars, keys[1..], n);
      if x.Err? then Err(x.msg)
      else if rest.Err? then
        assert exists i :: 1 <= i < |keys| && !(keys[i] in vars && Input(vars[keys[i]], n).Ok?) by {
          var j :| 0 <= j < |keys[1..]| && !(keys[1..][j] in vars && Input(vars[keys[1..][j]], n).Ok?);
          assert keys[1..][j] == keys[j + 1];
        }
        Err(rest.msg)
      else Ok([x.value] + rest.value)
  }

  /** The ensemble-mean inputs: the `<var>_m` values. */
  function MeanKeys(): (ks: seq<string>)
    ensures |ks| == |Variables| && forall i :: 0 <= i < |Variables| ==> ks[i] == MeanKey(Variables[i])
  {
    [MeanKey(Variables[0]), MeanKey(Variables[1]), MeanKey(Variables[2])]
  }

  /** The key a member reads for `v`: `<var>` if present, else `<var>_m`. */
  function MemberKey(vars: Vars, v: Variable): string {
    if v.name in vars then v.name else MeanKey(v)
  }

  function MemberKeys(vars: Vars): (ks: seq<string>)
    ensures |ks| == |Variables| && forall i :: 0 <= i < |Variables| ==> ks[i] == MemberKey(vars, Variables[i])
  {
    [MemberKey(vars, Variables[0]), MemberKey(vars, Variables[1]), MemberKey(vars, Variables[2])]
  }

  /** A member's input for every predictor is the member's own value when
      the dataset has `<var>`, and the ensemble mean `<var>_m` otherwise. */
  lemma MemberInputsFallBack(vars: Vars, n: nat)
    requires Inputs(vars, MemberKeys(vars), n).Ok?
    ensures forall i :: 0 <= i < |Variables| ==>
      var x := Inputs(vars, MemberKeys(vars), n).value[i];
      (Variables[i].name in vars ==> x == Input(vars[Variables[i].name], n).value)
      && (Variables[i].name !in vars ==>
        MeanKey(Variables[i]) in vars && x == Input(vars[MeanKey(Variables[i])], n).value)
  {
  }

  /** A predictor with no members (a full ERA5 month) gives every member
      the same input. */
  lemma ScalarInputShared(vars: Vars, i: int, n: nat, m: nat)
    requires 0 <= i < |Variables|
    requires Inputs(vars, MemberKeys(vars), n).Ok? && Inputs(vars, MemberKeys(vars), m).Ok?
    requires vars[MemberKeys(vars)[i]].Scalar?
    ensures Inputs(vars, MemberKeys(vars), n).value[i] == Inputs(vars, MemberKeys(vars), m).value[i]
  {
  }

  /** The dataset has a `number` dimension. */
  predicate HasMembers(vars: Vars) {
    exists k :: k in vars && vars[k].Members?
  }

  /** Every variable with members has `count` of them. */
  predicate MemberCount(vars: Vars, count: nat) {
    forall k :: k in vars && vars[k].Members? ==> |vars[k].xs| == count
  }

  /** The row of a prediction made from `inputs`. */
  function Row(stamp: string, number: nat, inputs: Result<seq<real>>, predict: seq<real> -> real): (r: Result<LogRow>)
    ensures r.Ok? <==> inputs.Ok?
    ensures r.Ok? ==> r.value == LogRow(stamp, number, RoundHalfEven(predict(inputs.value)))
  {
    if inputs.Err? then Err(inputs.msg) else Ok(LogRow(stamp, number, RoundHalfEven(predict(inputs.value))))
  }

  /** The mean row, member 0. */
  function MeanRow(stamp: string, vars: Vars, predict: seq<real> -> real): Result<LogRow> {
    Row(stamp, 0, Inputs(vars, MeanKeys(), 0), predict)
  }

  /** The member rows, numbered from 1 in member order; none without a
      `number` dimension. */
  function MemberRows(stamp: string, vars: Vars, count: nat, predict: seq<real> -> real): (rs: seq<Result<LogRow>>)
    ensures HasMembers(vars) ==> |rs| == count
    ensures !HasMembers(vars) ==> rs == []
    ensures forall n :: 0 <= n < |rs| ==> rs[n] == Row(stamp, n + 1, Inputs(vars, MemberKeys(vars), n), predict)
  {
    if HasMembers(vars) then
      seq(count, n requires 0 <= n < count => Row(stamp, n + 1, Inputs(vars, MemberKeys(vars), n), predict))
    else []
  }

  /** The rows written before the first failure. */
  function OkPrefix(ps: seq<Result<LogRow>>): (rs: seq<LogRow>)
    ensures |rs| <= |ps|
    ensures forall i :: 0 <= i < |rs| ==> ps[i] == Ok(rs[i])
    ensures |rs| < |ps| ==> ps[|rs|].Err?
    decreases |ps|
  {
    if ps == [] || ps[0].Err? then [] else [ps[0].value] + OkPrefix(ps[1..])
  }

  /** The message of the first failure, if any. */
  function FirstError(ps: seq<Result<LogRow>>): (e: Option<string>)
    ensures e.None? <==> forall i :: 0 <= i < |ps| ==> ps[i].Ok?
    ensures e.Some? ==> e.value == ps[|OkPrefix(ps)|].msg
  {
    if |OkPrefix(ps)| == |ps| then None else Some(ps[|OkPrefix(ps)|].msg)
  }

  /** The longest all-`Ok` prefix ends at the first failure. */
  lemma OkPrefixAt(ps: seq<Result<LogRow>>, rs: seq<LogRow>)
    requires |rs| <= |ps| && forall j :: 0 <= j < |rs| ==> ps[j] == Ok(rs[j])
    requires |rs| == |ps| || ps[|rs|].Err?
    ensures OkPrefix(ps) == rs
    decreases |rs|
  {
    if rs != [] {
      OkPrefixAt(ps[1..], rs[1..]);
    }
  }

  /** A run's rows are the mean row then the members, numbered 0, 1, 2, …
      in member order, all with the same issue date. */
  lemma RunRowsInOrder(stamp: string, vars: Vars, count: nat, predict: seq<real> -> real)
    requires MeanRow(stamp, vars, predict).Ok?
    ensures var rs := [MeanRow(stamp, vars, predict).value] + OkPrefix(MemberRows(stamp, vars, count, predict));
      forall i :: 0 <= i < |rs| ==> rs[i].issued == stamp && rs[i].number == i
  {
    var ms := MemberRows(stamp, vars, count, predict);
    var rs := [MeanRow(stamp, vars, predict).value] + OkPrefix(ms);
    forall i | 0 <= i < |rs| ensures rs[i].issued == stamp && rs[i].number == i {
      if i > 0 {
        assert rs[i] == OkPrefix(ms)[i - 1];
        assert ms[i - 1] == Ok(rs[i]);
      }
    }
  }

  /** The issue date as the log writes it: the season year (the calendar
      year minus one in January to April), then `MM-DD`. */
  function SeasonText(year: int, month: int): string {
    if 1 <= month <= 4 then IntToString(year - 1) else YearText(year)
  }

  lemma DigitsPlain(s: string)
    requires AllDigits(s)
    ensures PlainField(s)
  {
    assert forall k :: 0 <= k < |s| ==> IsDigit(s[k]);
  }

  lemma SeasonTextPlain(year: int, month: int)
    ensures PlainField(SeasonText(year, month))
  {
    if 1 <= month <= 4 {
      IntToStringChars(year - 1);
    } else if 0 <= year <= 9999 {
      DigitsPlain(Pad4(year));
    } else {
      IntToStringChars(year);
    }
  }

  function Stamp(year: int, month: int, day: int): (s: string)
    requires 1 <= month <= 12 && 1 <= day <= 31
    ensures PlainField(s)
  {
    SeasonTextPlain(year, month);
    DigitsPlain(Pad2(month));
    DigitsPlain(Pad2(day));
    SeasonText(year, month) + "-" + Pad2(month) + "-" + Pad2(day)
  }

  function LogName(season: string): string {
    season + "FUDweekly"
  }

  // ---------------------------------------------------------------------
  // The run

  /** The member loop: each row is written only while the log exists;
      the loop stops at the first failing prediction. */
  method WriteMembers(log: ForecastLog, rows: seq<Result<LogRow>>) returns (err: Option<string>)
    requires forall i :: 0 <= i < |rows| && rows[i].Ok? ==> PlainField(rows[i].value.issued)
    modifies log
    ensures log.present == old(log.present)
    ensures old(log.present) ==>
      log.content == Appended(true, old(log.content), OkPrefix(rows))
      && err == FirstError(rows)
    ensures !old(log.present) ==>
      unchanged(log)
      && err == (if rows == [] then None else if rows[0].Err? then Some(rows[0].msg) else Some(NotWritten))
  {
    ghost var done: seq<LogRow> := [];
    var i := 0;
    while i < |rows|
      invariant 0 <= i <= |rows| && |done| == i
      invariant log.present == old(log.present)
      invariant !log.present ==> i == 0
      invariant forall j :: 0 <= j < i ==> rows[j] == Ok(done[j])
      invariant log.content == Appended(true, old(log.content), done)
      invariant !old(log.present) ==> unchanged(log)
    {
      if rows[i].Err? {
        OkPrefixAt(rows, done);
        return Some(rows[i].msg);
      }
      if !log.present {
        return Some(NotWritten);
      }
      AppendedGrows(old(log.content), done, rows[i].value);
      log.Write(rows[i].value);
      done := done + [rows[i].value];
      i := i + 1;
    }
    OkPrefixAt(rows, done);
    err := None;
  }

  /** The job: the season year, the mean row, then the member rows; the
      result is the date printed for the mean forecast, and success is
      when the marker "True" is written. */
  method RunForecast(log: ForecastLog, year: int, month: int, day: int, vars: Vars, count: nat,
                     predict: seq<real> -> real) returns (r: Result<Date>)
    requires 1 <= month <= 12 && 1 <= day <= 31
    requires log.name == LogName(SeasonText(year, month))
    requires MemberCount(vars, count)
    modifies log
    ensures month == 5 || month == 6 ==> r == Err(NothingToDo) && unchanged(log)
    ensures month != 5 && month != 6 && MeanRow(Stamp(year, month, day), vars, predict).Err? ==>
      r == Err(MeanRow(Stamp(year, month, day), vars, predict).msg) && unchanged(log)
    ensures month != 5 && month != 6 && MeanRow(Stamp(year, month, day), vars, predict).Ok? ==>
      var mean := MeanRow(Stamp(year, month, day), vars, predict).value;
      var members := MemberRows(Stamp(year, month, day), vars, count, predict);
      log.present
      && log.content == Appended(old(log.present), old(log.content), [mean] + OkPrefix(members))
      && r == (if FirstError(members).Some? then Err(FirstError(members).value)
               else Ok(ForecastDateAsWritten(SeasonYear(year, month).value, predict(Inputs(vars, MeanKeys(), 0).value))))
    ensures old(log.present) ==> old(log.content) <= log.content
  {
    var season := SeasonYear(year, month);
    if season.Err? {
      return Err(season.msg);
    }
    var stamp := Stamp(year, month, day);
    var inputs := Inputs(vars, MeanKeys(), 0);
    if inputs.Err? {
      return Err(inputs.msg);
    }
    var f := predict(inputs.value);
    var mean := LogRow(stamp, 0, RoundHalfEven(f));
    var members := MemberRows(stamp, vars, count, predict);
    var err := WriteRun(log, mean, members);
    if err.Some? {
      return Err(err.value);
    }
    r := Ok(ForecastDateAsWritten(season.value, f));
  }

  /** The writes of one run: the mean row, then the member loop on the
      log the mean row has just created or extended. */
  method WriteRun(log: ForecastLog, mean: LogRow, members: seq<Result<LogRow>>) returns (err: Option<string>)
    requires forall i :: 0 <= i < |members| && members[i].Ok? ==> PlainField(members[i].value.issued)
    modifies log
    ensures log.present
    ensures log.content == Appended(old(log.present), old(log.content), [mean] + OkPrefix(members))
    ensures err == FirstError(members)
  {
    ghost var present0 := log.present;
    ghost var content0 := log.content;
    log.Write(mean);
    err := WriteMembers(log, members);
    AppendedJoin(present0, content0, mean, OkPrefix(members));
  }

  /** Writing the mean row and then more rows is writing them together. */
  lemma AppendedJoin(present: bool, content: string, first: LogRow, more: seq<LogRow>)
    ensures Appended(true, Appended(present, content, [first]), more) == Appended(present, content, [first] + more)
    decreases |more|
  {
    if more != [] {
      var init := more[..|more| - 1];
      var last := more[|more| - 1];
      assert more == init + [last];
      assert [first] + more == ([first] + init) + [last];
      AppendedJoin(present, content, first, init);
      AppendedSnoc(present, content, [first] + init, last);
      if init != [] {
        AppendedSnoc(true, Appended(present, content, [first]), init, last);
      }
    }
  }
}
