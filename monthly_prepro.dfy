/** The monthly predictor job (`prepro/monthly_preprocess.py` and its
    older copy `preprocess/monthly_preprocess.py`, which do the same): for
    each predictor the full ERA5 month when it has been downloaded, else
    the SEAS5.1 forecast, aggregated over the predictor month, written to
    `input_forecast.nc`, and the marker "True" once every predictor is in. */
module MonthlyPrepro {
  import opened Wrappers
  import opened Predictors

  /** The SEAS5.1 file a variable falls back on. */
  function SeasFile(season: int, month: int, v: Variable): string
    requires 1 <= month <= 12 && 1 <= v.month <= 12
  {
    Seas51Name(season, MonthlyIssue(month, v), v)
  }

  /** What one predictor contributes: the ERA5 monthly value under the
      mean key only, or the SEAS5.1 members and their mean. */
  function Entry(season: int, month: int, st: Store, v: Variable): (r: Result<Vars>)
    requires 1 <= month <= 12 && v in Variables && ValidStore(st)
    ensures r.Ok? ==> r.value.Keys <= KeysOf(v) && MeanKey(v) in r.value
    ensures r.Ok? ==> (v.name in r.value <==> Era5Name(season, v) !in st.files)
    ensures Era5Name(season, v) !in st.files && SeasFile(season, month, v) !in st.files ==>
      r == Err(v.name + " not found")
    ensures Era5Name(season, v) in st.files ==>
      (r.Ok? <==> Era5Value(st.era5(Era5Name(season, v)), v).Ok?)
      && (r.Ok? ==> r.value[MeanKey(v)] == Scalar(Era5Value(st.era5(Era5Name(season, v)), v).value))
    ensures Era5Name(season, v) !in st.files && SeasFile(season, month, v) in st.files ==>
      var xs := SeasAggregate(Celsius(st.seas(SeasFile(season, month, v)), v), season, v);
      (r.Ok? <==> xs.Ok?) && (r.Ok? ==> r.value == SeasEntries(v, xs.value))
  {
    var era5 := Era5Name(season, v);
    var seas := SeasFile(season, month, v);
    var source := ChooseSource(st.files, era5, seas, None, v);
    if source.Err? then Err(source.msg)
    else if source.value == Era5Full then
      var x := Era5Value(st.era5(era5), v);
      if x.Err? then Err(x.msg) else Ok(map[MeanKey(v) := Scalar(x.value)])
    else
      var xs := SeasAggregate(Celsius(st.seas(seas), v), season, v);
      if xs.Err? then Err(xs.msg) else Ok(SeasEntries(v, xs.value))
  }

  /** The contributions of the three predictors, in order. */
  function Entries(season: int, month: int, st: Store): (es: seq<Result<Vars>>)
    requires 1 <= month <= 12 && ValidStore(st)
    ensures |es| == |Variables|
    ensures forall i :: 0 <= i < |Variables| ==> es[i] == Entry(season, month, st, Variables[i])
    ensures forall i :: 0 <= i < |Variables| && es[i].Ok? ==>
      es[i].value.Keys <= KeysOf(Variables[i]) && MeanKey(Variables[i]) in es[i].value
  {
    [Entry(season, month, st, Variables[0]), Entry(season, month, st, Variables[1]), Entry(season, month, st, Variables[2])]
  }

  /** The job: the season year, then the predictors in order. */
  function Monthly(year: int, month: int, st: Store): (r: Result<Vars>)
    requires 1 <= month <= 12 && ValidStore(st)
    ensures month == 5 || month == 6 ==> r == Err(NothingToDo)
  {
    var season := SeasonYear(year, month);
    if season.Err? then Err(season.msg) else Collect(Entries(season.value, month, st))
  }

  /** The job succeeds, and writes its marker, exactly when the month is
      not May or June and every predictor resolves; the dataset then holds
      each predictor's contribution unchanged and nothing else. */
  lemma MonthlyWritesAll(year: int, month: int, st: Store)
    requires 1 <= month <= 12 && ValidStore(st)
    ensures Monthly(year, month, st).Ok? <==>
      month != 5 && month != 6
      && forall i :: 0 <= i < |Variables| ==> Entries(SeasonYear(year, month).value, month, st)[i].Ok?
    ensures Monthly(year, month, st).Ok? ==>
      HoldsAll(Monthly(year, month, st).value, Entries(SeasonYear(year, month).value, month, st))
      && OnlyFrom(Monthly(year, month, st).value, Entries(SeasonYear(year, month).value, month, st))
  {
    if month != 5 && month != 6 {
      var es := Entries(SeasonYear(year, month).value, month, st);
      assert Monthly(year, month, st) == Collect(es);
      CollectVariables(es);
    }
  }

  /** Every predictor's mean key is written on success. */
  lemma MonthlyHasMeans(year: int, month: int, st: Store)
    requires 1 <= month <= 12 && ValidStore(st)
    ensures Monthly(year, month, st).Ok? ==>
      forall i :: 0 <= i < |Variables| ==> MeanKey(Variables[i]) in Monthly(year, month, st).value
  {
    MonthlyWritesAll(year, month, st);
    if Monthly(year, month, st).Ok? {
      var es := Entries(SeasonYear(year, month).value, month, st);
      forall i | 0 <= i < |Variables|
        ensures MeanKey(Variables[i]) in Monthly(year, month, st).value
      {
        assert es[i].Ok? && MeanKey(Variables[i]) in es[i].value;
        HoldsAllAt(Monthly(year, month, st).value, es, i, MeanKey(Variables[i]));
      }
    }
  }

  /** The job as the script runs it: one predictor after the other into a
      growing dataset, stopping at the first abort. */
  method RunMonthly(year: int, month: int, st: Store) returns (r: Result<Vars>)
    requires 1 <= month <= 12 && ValidStore(st)
    ensures r == Monthly(year, month, st)
  {
    var season := SeasonYear(year, month);
    if season.Err? {
      return Err(season.msg);
    }
    ghost var es := Entries(season.value, month, st);
    var vars: Vars := map[];
    var i := 0;
    while i < |Variables|
      invariant 0 <= i <= |Variables|
      invariant Collect(es[..i]) == Ok(vars)
    {
      var e := Entry(season.value, month, st, Variables[i]);
      if e.Err? {
        CollectStops(es, i);
        return Err(e.msg);
      }
      CollectStep(es, i);
      vars := vars + e.value;
      i := i + 1;
    }
    assert es[..i] == es;
    r := Ok(vars);
  }
}
