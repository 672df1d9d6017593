/** The two download jobs for the predictors (`downloads/monthly_SEAS51_ERA5.py`
    and `downloads/weekly_ERA5.py`): a table from the date to the GRIB files
    to request or delete, the `frozen` reset outside the forecast season and
    the marker files telling the preprocessing that data changed.

    The climate data store is an oracle `available` saying whether the
    retrieval of a file succeeds; what the jobs change is the set of GRIB
    files, the small text files and the list of requests made. */
module Downloads {
  import opened Wrappers
  import opened Predictors
  import MonthlyPrepro

  const FrozenFile: string := "auto/frozen"
  const UpdateM: string := "downloads/updatem"
  const UpdateY: string := "downloads/updatey"
  const UpdateW: string := "downloads/updatew"
  const NoFrozenFile: string := "No such file or directory: 'auto/frozen'"

  /** A GRIB file the jobs fetch, by the index of its predictor in
      `Variables`: a finished ERA5 month, a partial ERA5 month, or a
      SEAS5.1 forecast issued in month `issue`. */
  datatype Grib =
    | Era5(year: int, index: int)
    | Era5Partial(year: int, index: int)
    | Seas51Issue(year: int, issue: int, index: int)

  predicate ValidGrib(g: Grib) {
    0 <= g.index < |Variables| && (g.Seas51Issue? ==> 1 <= g.issue <= 12)
  }

  /** The file's path under the project directory. */
  function Path(g: Grib): string
    requires ValidGrib(g)
  {
    match g
    case Era5(y, i) => Era5Name(y, Variables[i])
    case Era5Partial(y, i) => Era5PartialName(y, Variables[i])
    case Seas51Issue(y, m, i) => Seas51Name(y, m, Variables[i])
  }

  /** One step of a job. */
  datatype Action =
    /** The monthly downloaders: nothing when the file is present, else
        one request, the file kept on success and removed on failure. */
    | Fetch(file: Grib)
    /** The weekly downloader: always one request that replaces the file,
        which is removed when the request fails. */
    | Refresh(file: Grib)
    /** `os.remove` with any error ignored. */
    | Remove(file: Grib)
    /** Read `frozen` and write "False", always or only when it read "True". */
    | ResetFrozen(always: bool)
    /** Write "True" into a marker file. */
    | Mark(key: string)

  datatype State = State(files: set<Grib>, texts: map<string, string>, requests: seq<Grib>)

  /** The state once a job stops, and the error that stopped it. */
  datatype Outcome = Outcome(state: State, error: Option<string>)

  /** What one action does; a failed read of `frozen` changes nothing. */
  function Step(s: State, a: Action, available: Grib -> bool): (o: Outcome)
    ensures o.error.Some? <==> a.ResetFrozen? && FrozenFile !in s.texts
    ensures o.error.Some? ==> o.state == s
  {
    match a
    case Fetch(n) =>
      if n in s.files then Outcome(s, None)
      else Outcome(State(if available(n) then s.files + {n} else s.files - {n}, s.texts, s.requests + [n]), None)
    case Refresh(n) =>
      Outcome(State(if available(n) then s.files + {n} else s.files - {n}, s.texts, s.requests + [n]), None)
    case Remove(n) => Outcome(s.(files := s.files - {n}), None)
    case ResetFrozen(always) =>
      if FrozenFile !in s.texts then Outcome(s, Some(NoFrozenFile))
      else if always || s.texts[FrozenFile] == "True" then Outcome(s.(texts := s.texts[FrozenFile := "False"]), None)
      else Outcome(s, None)
    case Mark(k) => Outcome(s.(texts := s.texts[k := "True"]), None)
  }

  /** A job: the actions in order, stopping at the first error. */
  function Run(s: State, plan: seq<Action>, available: Grib -> bool): (o: Outcome)
    ensures o.error.Some? ==> o.error == Some(NoFrozenFile)
    ensures (forall k :: 0 <= k < |plan| ==> !plan[k].ResetFrozen?) ==> o.error.None?
    decreases |plan|
  {
    if plan == [] then Outcome(s, None)
    else
      var o := Run(s, plan[..|plan| - 1], available);
      if o.error.Some? then o else Step(o.state, plan[|plan| - 1], available)
  }

  lemma {:induction false} RunAppend(s: State, a: seq<Action>, b: seq<Action>, available: Grib -> bool)
    ensures Run(s, a + b, available) ==
      var o := Run(s, a, available);
      if o.error.Some? then o else Run(o.state, b, available)
    decreases |b|
  {
    if b == [] {
      assert a + b == a;
    } else {
      assert (a + b)[..|a + b| - 1] == a + b[..|b| - 1];
      RunAppend(s, a, b[..|b| - 1], available);
    }
  }

  function Fetches(ns: seq<Grib>): (plan: seq<Action>)
    ensures |plan| == |ns| && forall i :: 0 <= i < |ns| ==> plan[i] == Fetch(ns[i])
  {
    seq(|ns|, i requires 0 <= i < |ns| => Fetch(ns[i]))
  }

  /** The files and texts after a run of monthly fetches: every file that
      was present or is available ends present and no other; the text
      files are untouched; requests are only added. */
  lemma {:induction false} FetchesFiles(s: State, ns: seq<Grib>, available: Grib -> bool)
    ensures var o := Run(s, Fetches(ns), available);
      o.error.None?
      && o.state.texts == s.texts
      && o.state.files == s.files + (set n | n in ns && available(n))
      && |o.state.requests| >= |s.requests| && o.state.requests[..|s.requests|] == s.requests
    decreases |ns|
  {
    if ns != [] {
      var init := ns[..|ns| - 1];
      assert Fetches(ns)[..|ns| - 1] == Fetches(init);
      FetchesFiles(s, init, available);
      var p := Run(s, Fetches(init), available).state;
      var q := Step(p, Fetch(ns[|ns| - 1]), available).state;
      assert q.requests[..|p.requests|] == p.requests;
      assert q.requests[..|s.requests|] == s.requests by {
        assert p.requests[..|s.requests|] == s.requests;
      }
      assert (set n | n in ns && available(n)) ==
        (set n | n in init && available(n)) + (if available(ns[|ns| - 1]) then {ns[|ns| - 1]} else {}) by {
        assert ns == init + [ns[|ns| - 1]];
      }
    }
  }

  /** The requests of a run of monthly fetches: each for a file of the
      plan that was absent at the start, and every such file asked for. */
  lemma {:induction false} FetchesRequests(s: State, ns: seq<Grib>, available: Grib -> bool)
    ensures var o := Run(s, Fetches(ns), available);
      |o.state.requests| >= |s.requests|
      && (forall k :: |s.requests| <= k < |o.state.requests| ==>
            o.state.requests[k] in ns && o.state.requests[k] !in s.files)
      && (forall n :: n in ns && n !in s.files ==> n in o.state.requests[|s.requests|..])
    decreases |ns|
  {
    FetchesFiles(s, ns, available);
    if ns != [] {
      var init := ns[..|ns| - 1];
      var n := ns[|ns| - 1];
      assert Fetches(ns)[..|ns| - 1] == Fetches(init);
      assert ns == init + [n];
      FetchesRequests(s, init, available);
      FetchesFiles(s, init, available);
      var p := Run(s, Fetches(init), available).state;
      assert Run(s, Fetches(ns), available).state == Step(p, Fetch(n), available).state;
      FetchStepRequests(s.files, |s.requests|, init, n, p, available);
    }
  }

  /** One more fetch keeps the request log of a run of fetches as
      `FetchesRequests` describes it. */
  lemma FetchStepRequests(files0: set<Grib>, base: nat, init: seq<Grib>, n: Grib, p: State, available: Grib -> bool)
    requires |p.requests| >= base
    requires forall k :: base <= k < |p.requests| ==> p.requests[k] in init && p.requests[k] !in files0
    requires forall m :: m in init && m !in files0 ==> m in p.requests[base..]
    requires forall m :: m in p.files ==> m in files0 || m in init
    requires files0 <= p.files
    ensures var q := Step(p, Fetch(n), available).state;
      |q.requests| >= base
      && (forall k :: base <= k < |q.requests| ==> q.requests[k] in init + [n] && q.requests[k] !in files0)
      && (forall m :: m in init + [n] && m !in files0 ==> m in q.requests[base..])
  {
    var q := Step(p, Fetch(n), available).state;
    assert q.requests == if n in p.files then p.requests else p.requests + [n];
    forall k | base <= k < |q.requests|
      ensures q.requests[k] in init + [n] && q.requests[k] !in files0
    {
      if k < |p.requests| {
        assert q.requests[k] == p.requests[k];
      } else {
        assert q.requests[k] == n;
      }
    }
    forall m | m in init + [n] && m !in files0
      ensures m in q.requests[base..]
    {
      if m in init {
        var j :| base <= j < |p.requests| && p.requests[j] == m by {
          assert m in p.requests[base..];
        }
        assert q.requests[j] == m;
      } else {
        assert m == n;
        if n !in p.files {
          assert q.requests[|q.requests| - 1] == m;
        }
      }
    }
  }

  /** Marker files written one after the other. */
  function Marks(ks: seq<string>): (plan: seq<Action>)
    ensures |plan| == |ks| && forall i :: 0 <= i < |ks| ==> plan[i] == Mark(ks[i])
  {
    seq(|ks|, i requires 0 <= i < |ks| => Mark(ks[i]))
  }

  /** The text files once every key of `ks` holds "True". */
  function Marked(t: map<string, string>, ks: seq<string>): (r: map<string, string>)
    ensures forall k :: k in ks ==> k in r && r[k] == "True"
    ensures forall k :: k !in ks ==> (k in r <==> k in t) && (k in t ==> r[k] == t[k])
    decreases |ks|
  {
    if ks == [] then t else Marked(t, ks[..|ks| - 1])[ks[|ks| - 1] := "True"]
  }

  /** Writing markers never fails and touches nothing but the markers. */
  lemma {:induction false} RunMarks(s: State, ks: seq<string>, available: Grib -> bool)
    ensures Run(s, Marks(ks), available) == Outcome(s.(texts := Marked(s.texts, ks)), None)
    decreases |ks|
  {
    if ks != [] {
      assert Marks(ks)[..|ks| - 1] == Marks(ks[..|ks| - 1]);
      RunMarks(s, ks[..|ks| - 1], available);
    }
  }

  /** A job that reads `frozen` once and then writes its markers. */
  lemma ResetThenMarks(s: State, always: bool, ks: seq<string>, available: Grib -> bool)
    ensures var o := Run(s, [ResetFrozen(always)] + Marks(ks), available);
      (o.error.Some? <==> FrozenFile !in s.texts)
      && (o.error.Some? ==> o == Outcome(s, Some(NoFrozenFile)))
      && (o.error.None? ==>
            o.state == s.(texts := Marked(
              if always || s.texts[FrozenFile] == "True" then s.texts[FrozenFile := "False"] else s.texts, ks)))
  {
    RunAppend(s, [ResetFrozen(always)], Marks(ks), available);
    assert [ResetFrozen(always)][..0] == [];
    var o := Run(s, [ResetFrozen(always)], available);
    if o.error.None? {
      RunMarks(o.state, ks, available);
    }
  }

  /** The downloads of a monthly job followed by its markers. */
  lemma FetchesThenMarks(s: State, ns: seq<Grib>, ks: seq<string>, available: Grib -> bool)
    ensures var o := Run(s, Fetches(ns) + Marks(ks), available);
      o.error.None?
      && o.state.files == s.files + (set n | n in ns && available(n))
      && o.state.texts == Marked(s.texts, ks)
      && |o.state.requests| >= |s.requests| && o.state.requests[..|s.requests|] == s.requests
      && (forall k :: |s.requests| <= k < |o.state.requests| ==>
            o.state.requests[k] in ns && o.state.requests[k] !in s.files)
      && (forall n :: n in ns && n !in s.files ==> n in o.state.requests[|s.requests|..])
  {
    var fs := Fetches(ns);
    FetchesFiles(s, ns, available);
    FetchesRequests(s, ns, available);
    RunAppend(s, fs, Marks(ks), available);
    RunMarks(Run(s, fs, available).state, ks, available);
  }

  // ---------------------------------------------------------------------
  // The monthly job

  /** The GRIB files the monthly job asks for, in order, with predictors
      0, 1, 2 the December temperature, the November snowfall and the
      September cloud cover: the SEAS5.1 forecasts of the month in July to
      September; in October and November the forecasts for December and
      November with the finished September cloud cover; in December the
      December forecast with the finished September and November months;
      in January to April the three finished ERA5 months of the previous
      year's season. */
  function MonthlyDownloads(year: int, month: int): (ns: seq<Grib>)
    requires 1 <= month <= 12
    ensures |ns| == if month == 5 || month == 6 then 0 else 3
    ensures forall k :: 0 <= k < |ns| ==> ValidGrib(ns[k])
  {
    if 7 <= month <= 9 then [Seas51Issue(year, month, 0), Seas51Issue(year, month, 1), Seas51Issue(year, month, 2)]
    else if month == 10 || month == 11 then [Seas51Issue(year, month, 0), Seas51Issue(year, month, 1), Era5(year, 2)]
    else if month == 12 then [Seas51Issue(year, month, 0), Era5(year, 2), Era5(year, 1)]
    else if month <= 4 then [Era5(year - 1, 2), Era5(year - 1, 1), Era5(year - 1, 0)]
    else []
  }

  /** The markers of the monthly job: `updatem` always, `updatey` in
      January to April. */
  function MonthlyFlags(month: int): (ks: seq<string>)
    ensures UpdateM in ks && (UpdateY in ks <==> month <= 4)
  {
    [UpdateM] + (if month <= 4 then [UpdateY] else [])
  }

  /** The whole monthly job: the downloads of the month, the `frozen`
      reset in May and June, then the markers. The `except` fallbacks of
      the script never run, since the downloaders catch every error
      themselves. */
  function MonthlyActions(year: int, month: int): (plan: seq<Action>)
    requires 1 <= month <= 12
    ensures ResetFrozen(false) in plan <==> month == 5 || month == 6
    ensures forall k :: 0 <= k < |plan| ==> plan[k] != ResetFrozen(true)
    ensures Mark(UpdateM) in plan && (Mark(UpdateY) in plan <==> month <= 4)
  {
    Fetches(MonthlyDownloads(year, month))
      + (if month == 5 || month == 6 then [ResetFrozen(false)] else [])
      + Marks(MonthlyFlags(month))
  }

  /** The file the monthly preprocessing looks for first: the ERA5 month
      once the predictor's month is over, and in January to April, the
      SEAS5.1 forecast of the current month otherwise. */
  function PreproFirst(year: int, month: int, i: int): (g: Grib)
    requires 1 <= month <= 12 && month != 5 && month != 6 && 0 <= i < |Variables|
    ensures ValidGrib(g)
    ensures Path(g) ==
      var v := Variables[i];
      var season := SeasonYear(year, month).value;
      if v.month < month || month <= 4 then Era5Name(season, v) else MonthlyPrepro.SeasFile(season, month, v)
  {
    var v := Variables[i];
    var season := SeasonYear(year, month).value;
    if v.month < month || month <= 4 then Era5(season, i) else Seas51Issue(season, MonthlyIssue(month, v), i)
  }

  /** For every predictor the job fetches the file the monthly
      preprocessing looks for first. */
  lemma MonthlyDownloadsFeedPrepro(year: int, month: int, i: int)
    requires 1 <= month <= 12 && month != 5 && month != 6 && 0 <= i < |Variables|
    ensures PreproFirst(year, month, i) in MonthlyDownloads(year, month)
  {
  }

  /** Outside May and June the monthly job never fails: it downloads what
      is missing and available, asks for nothing else and nothing present,
      writes `updatem`, and writes `updatey` in January to April whatever
      the data store answered. */
  lemma MonthlyEffect(s: State, year: int, month: int, available: Grib -> bool)
    requires 1 <= month <= 12 && month != 5 && month != 6
    ensures var o := Run(s, MonthlyActions(year, month), available);
      var ns := MonthlyDownloads(year, month);
      o.error.None?
      && o.state.files == s.files + (set n | n in ns && available(n))
      && o.state.texts == Marked(s.texts, MonthlyFlags(month))
      && |o.state.requests| >= |s.requests|
      && (forall k :: |s.requests| <= k < |o.state.requests| ==>
            o.state.requests[k] in ns && o.state.requests[k] !in s.files)
      && (forall n :: n in ns && n !in s.files ==> n in o.state.requests[|s.requests|..])
  {
    var ns := MonthlyDownloads(year, month);
    assert MonthlyActions(year, month) == Fetches(ns) + Marks(MonthlyFlags(month));
    FetchesThenMarks(s, ns, MonthlyFlags(month), available);
  }

  /** In January to April no SEAS5.1 file is ever requested: the fallback
      on a failed ERA5 download is unreachable. */
  lemma NoSeasFallback(s: State, year: int, month: int, available: Grib -> bool)
    requires 1 <= month <= 4
    ensures var o := Run(s, MonthlyActions(year, month), available);
      forall k :: |s.requests| <= k < |o.state.requests| ==>
        o.state.requests[k].Era5? && o.state.requests[k].year == year - 1
  {
    MonthlyEffect(s, year, month, available);
  }

  /** In January to April a predictor whose ERA5 month cannot be
      retrieved, and whose files were not already there, has neither its
      ERA5 month nor a SEAS5.1 forecast after the job. */
  lemma MissingEra5Stays(s: State, year: int, month: int, available: Grib -> bool, i: int)
    requires 1 <= month <= 4 && 0 <= i < |Variables|
    requires var seas := Seas51Issue(year - 1, MonthlyIssue(month, Variables[i]), i);
      !available(Era5(year - 1, i)) && Era5(year - 1, i) !in s.files && seas !in s.files
    ensures var fin := Run(s, MonthlyActions(year, month), available).state.files;
      Era5(year - 1, i) !in fin && Seas51Issue(year - 1, MonthlyIssue(month, Variables[i]), i) !in fin
  {
    var ns := MonthlyDownloads(year, month);
    var seas := Seas51Issue(year - 1, MonthlyIssue(month, Variables[i]), i);
    MonthlyEffect(s, year, month, available);
    var fin := Run(s, MonthlyActions(year, month), available).state.files;
    assert fin == s.files + (set n | n in ns && available(n));
    assert seas !in ns;
  }

  /** A predictor neither of whose files is in the directory. */
  lemma EntryWithoutFiles(season: int, month: int, st: Store, i: int)
    requires 1 <= month <= 12 && 0 <= i < |Variables| && ValidStore(st)
    requires Path(Era5(season, i)) !in st.files
    requires Path(Seas51Issue(season, MonthlyIssue(month, Variables[i]), i)) !in st.files
    ensures MonthlyPrepro.Entry(season, month, st, Variables[i]) == Err(Variables[i].name + " not found")
  {
    assert Path(Era5(season, i)) == Era5Name(season, Variables[i]);
    assert Path(Seas51Issue(season, MonthlyIssue(month, Variables[i]), i)) == MonthlyPrepro.SeasFile(season, month, Variables[i]);
  }

  /** Hence the monthly preprocessing then has no input for it: `st` is
      the download directory after the job. */
  lemma MissingEra5Aborts(s: State, year: int, month: int, available: Grib -> bool, st: Store, i: int)
    requires 1 <= month <= 4 && 0 <= i < |Variables| && ValidStore(st)
    requires var seas := Seas51Issue(year - 1, MonthlyIssue(month, Variables[i]), i);
      !available(Era5(year - 1, i)) && Era5(year - 1, i) !in s.files && seas !in s.files
    requires forall g :: ValidGrib(g) ==>
      (Path(g) in st.files <==> g in Run(s, MonthlyActions(year, month), available).state.files)
    ensures MonthlyPrepro.Entry(year - 1, month, st, Variables[i]) == Err(Variables[i].name + " not found")
  {
    MissingEra5Stays(s, year, month, available, i);
    AbsentFilesAbort(year - 1, month, st, i, Run(s, MonthlyActions(year, month), available).state.files);
  }

  /** A directory mirroring a set of files without either file of a
      predictor has no input for it. */
  lemma AbsentFilesAbort(season: int, month: int, st: Store, i: int, fin: set<Grib>)
    requires 1 <= month <= 12 && 0 <= i < |Variables| && ValidStore(st)
    requires Era5(season, i) !in fin && Seas51Issue(season, MonthlyIssue(month, Variables[i]), i) !in fin
    requires forall g :: ValidGrib(g) ==> (Path(g) in st.files <==> g in fin)
    ensures MonthlyPrepro.Entry(season, month, st, Variables[i]) == Err(Variables[i].name + " not found")
  {
    var era5 := Era5(season, i);
    var seas := Seas51Issue(season, MonthlyIssue(month, Variables[i]), i);
    assert ValidGrib(era5) && ValidGrib(seas);
    assert Path(era5) !in st.files && Path(seas) !in st.files;
    EntryWithoutFiles(season, month, st, i);
  }


  /** In May and June the job downloads nothing; `frozen` ends "False",
      and the file is rewritten only when it read "True"; a missing file
      stops the job before `updatem`. */
  lemma MonthlyResetsFrozen(s: State, year: int, month: int, available: Grib -> bool)
    requires month == 5 || month == 6
    ensures var o := Run(s, MonthlyActions(year, month), available);
      (o.error.Some? <==> FrozenFile !in s.texts)
      && (o.error.Some? ==> o == Outcome(s, Some(NoFrozenFile)))
      && (o.error.None? ==>
            o.state.files == s.files && o.state.requests == s.requests
            && o.state.texts ==
              Marked(if s.texts[FrozenFile] == "True" then s.texts[FrozenFile := "False"] else s.texts, [UpdateM]))
  {
    assert MonthlyActions(year, month) == [ResetFrozen(false)] + Marks([UpdateM]);
    ResetThenMarks(s, false, [UpdateM], available);
  }

  // ---------------------------------------------------------------------
  // The weekly job

  /** What the weekly job does for the date before its marker: within
      the first six days of October, December and January it refreshes the
      partial month before, afterwards it removes that partial file; in
      September and November it refreshes the current month from the
      seventh on; in December from the seventh on it also starts on the
      December temperature. Every other month resets `frozen`. */
  function WeeklyFileActions(year: int, month: int, day: int): (plan: seq<Action>)
    requires 1 <= month <= 12
    ensures |plan| <= 2
    ensures ResetFrozen(true) in plan <==> 2 <= month <= 8
    ensures forall k :: 0 <= k < |plan| ==> !plan[k].Fetch? && !plan[k].Mark? && plan[k] != ResetFrozen(false)
    ensures forall k :: 0 <= k < |plan| && (plan[k].Refresh? || plan[k].Remove?) ==> plan[k].file.Era5Partial?
  {
    if month == 9 then (if day > 6 then [Refresh(Era5Partial(year, 2))] else [])
    else if month == 10 then
      (if day < 7 then [Refresh(Era5Partial(year, 2))] else [Remove(Era5Partial(year, 2))])
    else if month == 11 then (if day > 6 then [Refresh(Era5Partial(year, 1))] else [])
    else if month == 12 then
      (if day < 7 then [Refresh(Era5Partial(year, 1))]
       else [Remove(Era5Partial(year, 1)), Refresh(Era5Partial(year, 0))])
    else if month == 1 then
      (if day < 7 then [Refresh(Era5Partial(year - 1, 0))] else [Remove(Era5Partial(year - 1, 0))])
    else [ResetFrozen(true)]
  }

  /** The whole weekly job: the files of the date, then `updatew`. */
  function WeeklyActions(year: int, month: int, day: int): (plan: seq<Action>)
    requires 1 <= month <= 12
    ensures plan != [] && plan[|plan| - 1] == Mark(UpdateW)
    ensures ResetFrozen(true) in plan <==> 2 <= month <= 8
    ensures forall k :: 0 <= k < |plan| ==> !plan[k].Fetch? && plan[k] != ResetFrozen(false)
  {
    WeeklyFileActions(year, month, day) + Marks([UpdateW])
  }

  /** The partial file a weekly run in September to January keeps up to
      date or retires: one of the season the weekly preprocessing works
      on, of a predictor whose month has begun. */
  function WeeklyTarget(year: int, month: int, day: int): (n: Grib)
    requires month == 9 || month == 10 || month == 11 || month == 12 || month == 1
    ensures n.Era5Partial? && ValidGrib(n) && n.year == SeasonYear(year, month).value
    ensures var m := Variables[n.index].month; m == month || (m + 1 == month) || (m == 12 && month == 1)
  {
    if month == 9 || month == 10 then Era5Partial(year, 2)
    else if month == 11 || (month == 12 && day < 7) then Era5Partial(year, 1)
    else if month == 12 then Era5Partial(year, 0)
    else Era5Partial(year - 1, 0)
  }

  /** One refresh or removal, then the markers. */
  lemma OneFileThenMarks(s: State, a: Action, ks: seq<string>, available: Grib -> bool)
    requires a.Refresh? || a.Remove?
    ensures Run(s, [a] + Marks(ks), available) ==
      Outcome(State(
        if a.Refresh? && available(a.file) then s.files + {a.file} else s.files - {a.file},
        Marked(s.texts, ks),
        if a.Refresh? then s.requests + [a.file] else s.requests), None)
  {
    RunAppend(s, [a], Marks(ks), available);
    assert [a][..0] == [];
    RunMarks(Step(s, a, available).state, ks, available);
  }

  /** A removal, a refresh, then the markers. */
  lemma TwoFilesThenMarks(s: State, a: Grib, b: Grib, ks: seq<string>, available: Grib -> bool)
    ensures Run(s, [Remove(a), Refresh(b)] + Marks(ks), available) ==
      Outcome(State(
        if available(b) then s.files - {a} + {b} else s.files - {a} - {b},
        Marked(s.texts, ks),
        s.requests + [b]), None)
  {
    var p := [Remove(a), Refresh(b)];
    RunAppend(s, p, Marks(ks), available);
    assert p[..1] == [Remove(a)];
    assert p[..1][..0] == [];
    var q := Step(s, Remove(a), available).state;
    assert Run(s, p[..1][..0], available) == Outcome(s, None);
    assert Run(s, p[..1], available) == Outcome(q, None);
    assert Run(s, p, available) == Step(q, Refresh(b), available);
    RunMarks(Run(s, p, available).state, ks, available);
  }

  /** In September to January the weekly job never fails, requests at
      most the one partial file it targets and writes `updatew`. That file
      ends present exactly when it was refreshed successfully, or as before
      when the job had nothing to do (September and November before the
      seventh); in December from the seventh the November partial file is
      retired first; no other file changes. */
  lemma WeeklyPartialEffect(s: State, year: int, month: int, day: int, available: Grib -> bool)
    requires month == 9 || month == 10 || month == 11 || month == 12 || month == 1
    ensures var o := Run(s, WeeklyActions(year, month, day), available);
      var n := WeeklyTarget(year, month, day);
      var idle := (month == 9 || month == 11) && day <= 6;
      var refreshed := ((month == 9 || month == 11) && day > 6) || ((month == 10 || month == 1) && day < 7) || month == 12;
      var base := if month == 12 && day >= 7 then s.files - {Era5Partial(year, 1)} else s.files;
      o.error.None?
      && o.state.texts == Marked(s.texts, [UpdateW])
      && o.state.files == (if idle then s.files else if refreshed && available(n) then base + {n} else base - {n})
      && o.state.requests == s.requests + (if refreshed then [n] else [])
  {
    var n := WeeklyTarget(year, month, day);
    if (month == 9 || month == 11) && day <= 6 {
      assert WeeklyActions(year, month, day) == Marks([UpdateW]);
      RunMarks(s, [UpdateW], available);
    } else if month == 12 && day >= 7 {
      assert WeeklyActions(year, month, day) == [Remove(Era5Partial(year, 1)), Refresh(n)] + Marks([UpdateW]);
      TwoFilesThenMarks(s, Era5Partial(year, 1), n, [UpdateW], available);
    } else if month == 9 || month == 11 || month == 12 || day < 7 {
      assert WeeklyActions(year, month, day) == [Refresh(n)] + Marks([UpdateW]);
      OneFileThenMarks(s, Refresh(n), [UpdateW], available);
    } else {
      assert WeeklyActions(year, month, day) == [Remove(n)] + Marks([UpdateW]);
      OneFileThenMarks(s, Remove(n), [UpdateW], available);
    }
  }

  /** From February to August every weekly run writes "False" into
      `frozen`, whatever it read, and nothing else but `updatew`. */
  lemma WeeklyResetsFrozen(s: State, year: int, month: int, day: int, available: Grib -> bool)
    requires 2 <= month <= 8
    ensures var o := Run(s, WeeklyActions(year, month, day), available);
      (o.error.Some? <==> FrozenFile !in s.texts)
      && (o.error.None? ==>
            o.state == s.(texts := Marked(s.texts[FrozenFile := "False"], [UpdateW])))
  {
    assert WeeklyActions(year, month, day) == [ResetFrozen(true)] + Marks([UpdateW]);
    ResetThenMarks(s, true, [UpdateW], available);
  }

  // ---------------------------------------------------------------------
  // The jobs as the scripts run them

  /** The files under the project directory the two jobs touch. */
  class Workspace {
    var files: set<Grib>
    var texts: map<string, string>
    var requests: seq<Grib>

    constructor(s: State)
      ensures Snapshot() == s
    {
      files := s.files;
      texts := s.texts;
      requests := s.requests;
    }

    function Snapshot(): State
      reads this
    {
      State(files, texts, requests)
    }

    /** One action on the workspace. */
    method Perform(a: Action, available: Grib -> bool) returns (err: Option<string>)
      modifies this
      ensures Outcome(Snapshot(), err) == Step(old(Snapshot()), a, available)
    {
      err := None;
      match a {
        case Fetch(n) =>
          if n !in files {
            requests := requests + [n];
            if available(n) {
              files := files + {n};
            } else {
              files := files - {n};
            }
          }
        case Refresh(n) =>
          requests := requests + [n];
          if available(n) {
            files := files + {n};
          } else {
            files := files - {n};
          }
        case Remove(n) =>
          files := files - {n};
        case ResetFrozen(always) =>
          if FrozenFile !in texts {
            err := Some(NoFrozenFile);
          } else if always || texts[FrozenFile] == "True" {
            texts := texts[FrozenFile := "False"];
          }
        case Mark(k) =>
          texts := texts[k := "True"];
      }
    }

    /** The actions one after the other, stopping at the first error. */
    method RunPlan(plan: seq<Action>, available: Grib -> bool) returns (err: Option<string>)
      modifies this
      ensures Outcome(Snapshot(), err) == Run(old(Snapshot()), plan, available)
    {
      err := None;
      var i := 0;
      while i < |plan|
        invariant 0 <= i <= |plan|
        invariant err == None
        invariant Run(old(Snapshot()), plan[..i], available) == Outcome(Snapshot(), None)
      {
        assert plan[..i + 1][..i] == plan[..i];
        err := Perform(plan[i], available);
        if err.Some? {
          RunAppend(old(Snapshot()), plan[..i + 1], plan[i + 1..], available);
          assert plan[..i + 1] + plan[i + 1..] == plan;
          return;
        }
        i := i + 1;
      }
      assert plan[..i] == plan;
    }

    /** `monthly_SEAS51_ERA5.py` run in `month` of `year`. */
    method MonthlyJob(year: int, month: int, available: Grib -> bool) returns (err: Option<string>)
      requires 1 <= month <= 12
      modifies this
      ensures Outcome(Snapshot(), err) == Run(old(Snapshot()), MonthlyActions(year, month), available)
    {
      err := RunPlan(MonthlyActions(year, month), available);
    }

    /** `weekly_ERA5.py` run on `day` `month` `year`. */
    method WeeklyJob(year: int, month: int, day: int, available: Grib -> bool) returns (err: Option<string>)
      requires 1 <= month <= 12
      modifies this
      ensures Outcome(Snapshot(), err) == Run(old(Snapshot()), WeeklyActions(year, month, day), available)
    {
      err := RunPlan(WeeklyActions(year, month, day), available);
    }
  }
}
