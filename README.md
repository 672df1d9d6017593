# SLICEop core in Dafny

SLICEop forecasts the freeze-up date of the St. Lawrence River at Longueuil.
A set of cron scripts does the work. This project models the core of those
scripts and proves properties about them:

- **Ingestion** (`downloads/daily_Twater.py`): the daily job appends newly
  completed days of thermistor water temperature to the station series. It
  keeps the `next.i` file index and detects freeze-up into `frozen` and
  `frozenDate`.
- **InitialIngestion** (`downloads/initial_Twater.py`): builds the station
  store once, from the legacy spreadsheet, the re-transferred spreadsheet
  and the files that carry no timestamps.
- **YearlyQc** (`prepro/yearly_preprocess.py` and its older copy under
  `preprocess/`): quality control of the water temperature, the winter
  offset, the freeze-up date of every season and the yearly predictors.
- **Predictors**, **MonthlyPrepro**, **Splice** and **WeeklyPrepro**
  (`monthly_preprocess.py` and `weekly_preprocess.py`, both copies): for
  each predictor, the finished ERA5 month when it exists, otherwise the
  SEAS5.1 forecast, with partial ERA5 months spliced into it.
- **WeeklyForecast** (`auto/weekly_forecast.py`): turns the predicted
  day-of-year into a date, and keeps the per-season log of mean and member
  forecasts.
- **Echart** (`auto/daily_prepare_data_for_echart.py`): the dashboard data.
  This covers the rotated climatology, one series per season, the latest
  forecast and the climatological freeze-up date.
- **Downloads** (`downloads/monthly_SEAS51_ERA5.py` and
  `downloads/weekly_ERA5.py`): which GRIB files each job requests or
  removes, the `frozen` reset and the marker files.
- **Calendar**, **Text**, **Numeric**, **Series** and **Wrappers** hold what
  the scripts get from Python, pandas and numpy. That is civil dates and day
  numbers, `strptime`/`strftime` texts, rounding and truncation, sorting and
  `drop_duplicates`, and first-error propagation.

Pure computations are written as functions with lemmas. State the scripts
change on disk is written as classes whose methods are proved against those
functions:

- `Ingestion.Station`;
- `InitialIngestion.Store`;
- `WeeklyForecast.ForecastLog`;
- `Downloads.Workspace`.

Loops over arrays or series are written as methods with invariants, such as
`Echart.ClampNegatives` and `MonthlyPrepro.RunMonthly`.

Statistics computed by libraries are inputs to the model. The `Library`,
`QcLibrary` and `InitLibrary` records hold them, along with the scikit-learn
`predict`. The climate data store is an `available` oracle.

Where a script's comments and its code disagree, the model follows the code:

- `drop_duplicates` keeps the first sample of a date, so stored values win
  over re-read ones.
- The `QS-DEC` winter mean covers December to February.
- `groupby_bins` intervals are closed on the right, so a winter bin is
  (November 1, May 31].
- The `end + 1` slice of the yearly predictors keeps one more year. The
  FUDoy column assigned next to them is aligned by year, so a predictor year
  without a freeze-up winter gets NaN, and a freeze-up winter without
  predictors is dropped.
- The leap test behind the freeze-up day of year uses the stale
  `y = y_max` left by the loop before it.
- In `daily_Twater.py`, an exception in the first loop iteration reaches the
  `except` branch with `tmp` unbound. The job then crashes with a name
  error.
- `daily_Twater.py` writes `next.i` before it differentiates the new batch.
  A batch with fewer than two distinct times makes `np.gradient` raise, so
  the store is not updated, yet the files read are skipped from then on.
- Temperature cells are read as pandas and `float` read them: the
  strings `read_csv` treats as missing and `Bad` are missing values, white
  space is ignored, and exponents, signs and `nan` or `inf` in any case are
  accepted.
- The `except` fallbacks to SEAS5.1 in `monthly_SEAS51_ERA5.py` never run,
  because both downloaders catch every error themselves.
- `weekly_ERA5.py` writes `False` into `frozen` in every run from February
  to August.
- The dashboard reads `latestMonthly` from the weekly log.
- From July on, the current season has no label in the dashboard.

The `preprocess/` copies differ from the `prepro/` ones in two places:

- The older yearly QC flags a stuck sensor, and rejects a winter day, when
  a derivative is below or above 0.05, with a one-day derivative unit. The
  newer one uses 0.1 and two days (`YearlyQc.QcConfig`). Both copies bound
  jumps by the mean of the absolute second derivative plus its standard
  deviation, a library input.
- The older weekly copy has no full-day filter and does not reshape the
  ERA5 days into a column (`WeeklyPrepro.Config`).

Four places where the code evidently does not do what its authors meant
are modelled both ways; see "## Findings". Where the difference reaches
the files a job writes, the job takes a switch, so that it can run the code
as written or the intended version, and lemmas compare the two:

- the weekly splice of an accumulated predictor (`WeeklyPrepro.Config`, the
  `perMemberSums` field, with `WeeklyPrepro.Intended`);
- the dashboard's current-season test and its `%j` conversion of the
  latest forecast (`Echart.Reading`).

The forecast job's day-of-year to date conversion only reaches the date it
prints. The job returns that date as written
(`WeeklyForecast.ForecastDateAsWritten`), and lemmas compare it with the
intended `WeeklyForecast.ForecastDate`.

## Model

| member | source | states |
|---|---|---|
| Series.SortByTime | SLICEop/downloads/daily_Twater.py:42 | sorting by time yields a sorted series of the same length |
| Series.SortByTimePermutes | SLICEop/downloads/daily_Twater.py:42 | sorting by time only reorders the samples |
| Series.SortDedupe | SLICEop/downloads/daily_Twater.py:120 | sorting and dropping duplicate dates gives a strictly sorted series with the same dates, each carrying the first sample of that date in the input |
| Series.SortDedupeIdempotent | SLICEop/downloads/daily_Twater.py:120 | a series that is already strictly sorted is left unchanged |
| Series.MergeKeepsStored | SLICEop/downloads/daily_Twater.py:116-120 | because the first duplicate wins, every day already in the store survives appending new days |
| Series.InsertKeep | SLICEop/downloads/daily_Twater.py:120 | inserting a sample into a strictly sorted series keeps it strictly sorted and adds its date; an already present date leaves the series unchanged |
| Series.First | SLICEop/downloads/daily_Twater.py:120 | the first sample of a date exists exactly when the date occurs, and has that date |
| Series.StrictlySortedUnique | SLICEop/downloads/daily_Twater.py:120 | two strictly sorted series with the same samples are equal |
| Series.Select | SLICEop/downloads/initial_Twater.py:81 | a date-range selection keeps exactly the samples inside the range |
| Series.SelectSorted | SLICEop/downloads/initial_Twater.py:81 | a date-range selection of a sorted series stays sorted |
| Numeric.RoundHalfEven | SLICEop/auto/weekly_forecast.py:102 | rounding moves a value by at most one half and sends halves to the even neighbour |
| Numeric.RoundOfInteger | SLICEop/auto/weekly_forecast.py:102 | an integer rounds to itself |
| Numeric.RoundUnique | SLICEop/auto/weekly_forecast.py:102 | rounding is the only integer within one half that is even on ties |
| Numeric.RoundShift | SLICEop/auto/weekly_forecast.py:72-92 | rounding commutes with shifting by an integer unless the value is a tie and the shift is odd |
| Numeric.Trunc | SLICEop/auto/daily_prepare_data_for_echart.py:117 | conversion to an integer truncates toward zero |
| Numeric.SumAppend | SLICEop/prepro/monthly_preprocess.py:138-140 | the sum of a concatenation is the sum of the parts |
| Numeric.MeanBounds | SLICEop/prepro/monthly_preprocess.py:138-140 | a mean lies between the bounds of its values |
| Numeric.CumSum | SLICEop/prepro/weekly_preprocess.py:197 | entry k of a cumulative sum is the sum of the first k + 1 values |
| Numeric.CumSumStep | SLICEop/prepro/weekly_preprocess.py:197 | each cumulative sum adds the next value to the one before |
| Numeric.FirstArgMax | SLICEop/prepro/yearly_preprocess.py:129-130 | the index chosen holds a maximum and no earlier index holds one |
| Numeric.ArgMaxEq | SLICEop/prepro/weekly_preprocess.py:188 | the argmax of an equality mask is the first position of the value, or 0 when it does not occur |
| Numeric.ArgMaxEqAscending | SLICEop/prepro/weekly_preprocess.py:188 | in a strictly ascending sequence that position is the value's own index |
| Numeric.Nearest | SLICEop/prepro/monthly_preprocess.py:126 | the nearest-neighbour index is at least as close as any other, and the last of the equally close ones |
| Numeric.NearestExact | SLICEop/prepro/monthly_preprocess.py:126 | a value present in an ascending sequence is its own nearest neighbour |
| Text.NatToString | SLICEop/auto/weekly_forecast.py:101-102 | a natural number is written as a non-empty string of digits |
| Text.ParseNat | SLICEop/auto/weekly_forecast.py:101-102 | a natural number is read exactly from a non-empty string of digits |
| Text.NatRoundTrip | SLICEop/auto/weekly_forecast.py:101-102 | reading a written natural number gives it back |
| Text.IntToString | SLICEop/auto/weekly_forecast.py:101-102 | an integer is written as a non-empty text |
| Text.IntRoundTrip | SLICEop/auto/weekly_forecast.py:101-102 | reading a written integer gives it back |
| Text.IntToStringChars | SLICEop/auto/weekly_forecast.py:101-102 | a written integer contains no comma or newline, so it cannot break the log's fields |
| Text.Pad2 | SLICEop/auto/weekly_forecast.py:31 | a two-digit zero-padded field has two digits |
| Text.Pad2RoundTrip | SLICEop/auto/weekly_forecast.py:31 | reading a two-digit field gives back the number written |
| Text.Pad4Halves | SLICEop/downloads/weekly_ERA5.py:31-33 | a four-digit padded year is its padded hundreds followed by its padded last two digits |
| Text.Pad4Injective | SLICEop/downloads/weekly_ERA5.py:31-33 | two years in 0..9999 with the same four-digit text are the same year |
| Text.DatedNameFields | SLICEop/prepro/monthly_preprocess.py:48-55 | a name built from a fixed prefix, a padded year, a padded month, `_`, a word and a fixed suffix determines the year, the month and the word |
| Text.FormatDate | SLICEop/auto/daily_prepare_data_for_echart.py:119 | a date of a four-digit year is written in ten characters |
| Text.FormatDateSlice | SLICEop/auto/daily_prepare_data_for_echart.py:119 | characters 5 to 10 of a written date are its month and day |
| Text.ParseMonthDayOfDate | SLICEop/auto/daily_prepare_data_for_echart.py:220 | reading the month-day text of a date gives back its month and day |
| Text.ParseUnsignedDecimal | SLICEop/downloads/daily_Twater.py:38 | an unsigned decimal reads as a non-negative number |
| Text.DecimalOfNat | SLICEop/downloads/daily_Twater.py:38 | `float` reads a written natural number back as that number |
| Text.DigitsRead | SLICEop/downloads/daily_Twater.py:38 | `float` reads any non-empty string of digits as the number the digits spell |
| Text.ScientificOfNat | SLICEop/downloads/daily_Twater.py:38 | `float` reads a mantissa, `e` and a signed exponent as the mantissa times ten to that power (divided by the power for a negative exponent) |
| Text.PaddedText | SLICEop/downloads/daily_Twater.py:38 | white space before and after a text does not change what `float` reads |
| Text.StripAround | SLICEop/downloads/daily_Twater.py:38 | stripping a text surrounded by white space gives back exactly the text |
| Text.NanInAnyCase | SLICEop/downloads/daily_Twater.py:38 | `nan` in any mix of upper and lower case, with or without a sign, reads as NaN |
| Text.NegatedText | SLICEop/downloads/daily_Twater.py:38 | a leading minus sign negates a finite reading, keeps NaN, flips the sign of an infinity and fails exactly when the unsigned text fails |
| Text.Negate | SLICEop/downloads/daily_Twater.py:38 | negation keeps the kind of a reading (finite, NaN or infinite), negates a finite value and flips an infinity's sign |
| Text.Scale | SLICEop/downloads/daily_Twater.py:38 | scaling a non-negative mantissa by a power of ten stays non-negative |
| Text.IndexOf | SLICEop/auto/weekly_forecast.py:101 | the index found is the first occurrence of the character, or -1 when it is absent |
| Text.Split | SLICEop/auto/weekly_forecast.py:101 | splitting always yields at least one field |
| Text.SplitJoin | SLICEop/auto/weekly_forecast.py:101 | splitting fields joined by a separator they do not contain gives them back |
| Text.JoinSnoc | SLICEop/auto/weekly_forecast.py:99-109 | joining one more field appends the separator and that field |
| Text.Contains | SLICEop/auto/daily_prepare_data_for_echart.py:73 | substring search holds exactly when the text occurs at some position |
| Calendar.DaysInYear | SLICEop/prepro/yearly_preprocess.py:138-141 | a year has 366 days exactly when it is a leap year, else 365 |
| Calendar.DaysInMonth | SLICEop/prepro/yearly_preprocess.py:135 | every month has between 28 and 31 days |
| Calendar.DayOfYear | SLICEop/prepro/yearly_preprocess.py:135 | the day of year of a valid date lies between 1 and the length of its year |
| Calendar.DayOfYearInRange | SLICEop/prepro/yearly_preprocess.py:135 | the days before a month plus the day of month stay within the year |
| Calendar.FromDayOfYear | SLICEop/auto/daily_prepare_data_for_echart.py:117 | the date of day n of year y is a valid date of year y whose day of year is n |
| Calendar.FromDayOfYearOfDate | SLICEop/auto/daily_prepare_data_for_echart.py:117 | reading a date's day of year back gives the same date |
| Calendar.JanFirstPlus | SLICEop/auto/weekly_forecast.py:73-92 | counting days from January 1 always gives a valid date |
| Calendar.JanFirstPlusIsDateOf | SLICEop/auto/weekly_forecast.py:73-92 | counting k days from January 1 of y is the date whose day number is that of January 1 plus k |
| Calendar.DayNumberInjective | SLICEop/auto/weekly_forecast.py:73-92 | two valid dates with the same day number are the same date |
| Calendar.DateOfDayNumber | SLICEop/auto/weekly_forecast.py:73-92 | the date of a date's day number is that date |
| Calendar.DayNumberOfDateOf | SLICEop/auto/weekly_forecast.py:73-92 | the day number of the date of n is n |
| Calendar.EndOfDay | SLICEop/downloads/daily_Twater.py:55-56 | the last second of a day lies in that day |
| Calendar.BeforeIsDayOrder | SLICEop/downloads/daily_Twater.py:80 | comparing dates agrees with comparing their day numbers |
| Wrappers.AllOk | SLICEop/auto/daily_prepare_data_for_echart.py:219-222 | a sequence of results succeeds exactly when every element does, and then holds their values in order |
| Wrappers.AllOkFirstErr | SLICEop/auto/daily_prepare_data_for_echart.py:166-217 | the first failing element's error is the error of the whole sequence |
| Ingestion.ParseCell | SLICEop/downloads/daily_Twater.py:30-39 | a cell is missing exactly when it is `Bad`, one of the strings `read_csv` reads as missing, or a NaN for `float`; it fails exactly when it is none of these and `float` refuses it or reads an infinity; otherwise it holds the finite number `float` reads |
| Ingestion.RowSample | SLICEop/downloads/daily_Twater.py:35-39 | a row reads exactly when its cell does, giving the sample at the row's time |
| Ingestion.ParseRows | SLICEop/downloads/daily_Twater.py:36-40 | the parsed column has one entry per row of the file |
| Ingestion.ParseRowsSpec | SLICEop/downloads/daily_Twater.py:36-40 | a file parses exactly when every cell does, and then row i becomes the sample (time of row i, reading of its cell) |
| Ingestion.ReadThermistor | SLICEop/downloads/daily_Twater.py:28-42 | a successful read of a thermistor file is non-empty, keeps one sample per row and is sorted by time |
| Ingestion.ReadThermistorRows | SLICEop/downloads/daily_Twater.py:36-42 | every row of a file that was read has a cell that parses, and appears in the result at its time with that cell's reading; a `Bad` row appears as a missing value |
| Ingestion.PaddedCell | SLICEop/downloads/daily_Twater.py:38-39 | a written whole temperature with a leading space and a trailing line break reads as that temperature, since `float` strips white space |
| Ingestion.ScientificCell | SLICEop/downloads/daily_Twater.py:38-39 | a temperature written in scientific notation reads as its mantissa scaled by the power of ten |
| Ingestion.ReadThermistorFails | SLICEop/downloads/daily_Twater.py:28-42 | a read fails if and only if the file is empty or some cell fails to parse (neither a missing mark nor a number `float` accepts as finite or NaN) |
| Ingestion.ReadAll | SLICEop/downloads/daily_Twater.py:70-73 | every numbered file present in the thermistor directory has its read result, and nothing else does |
| Ingestion.ReadAllAt | SLICEop/downloads/daily_Twater.py:70-73 | consulting the directory's read results at file number k gives what reading that one file gives, so the loop may look results up instead of re-reading |
| Ingestion.Shifted | SLICEop/downloads/daily_Twater.py:74-78 | the error path: each previous sample moves one hour later and loses its temperature |
| Ingestion.ShiftedSorted | SLICEop/downloads/daily_Twater.py:74-78 | shifting a sorted batch keeps it sorted |
| Ingestion.Batch | SLICEop/downloads/daily_Twater.py:71-78 | the batch added in one iteration is the file read, or on a failed read the previous batch shifted one hour; it is non-empty and sorted either way |
| Ingestion.ResumeLoop | SLICEop/downloads/daily_Twater.py:63-90 | the file loop fails only when the first file after the starting one cannot be read (there is no earlier batch to shift), and then with the `NameError` of the unbound `tmp` |
| Ingestion.ResumeLoopIndices | SLICEop/downloads/daily_Twater.py:70-89 | the index saved for the next run never moves back, every index skipped over names an existing file, and the file it points at, when readable, ends after the cut-off |
| Ingestion.ResumeLoopBeforeLimit | SLICEop/downloads/daily_Twater.py:79-85 | nothing later than yesterday 23:59:59 is appended by the loop |
| Ingestion.FFill | SLICEop/downloads/daily_Twater.py:104 | forward fill keeps the times, keeps every present value and gives every missing value the one before it |
| Ingestion.FirstStage | SLICEop/downloads/daily_Twater.py:104-107 | a sample survives the first screen if and only if it is present, its hourly rate of change is below 1 and it is below 30 degrees; survivors are unchanged |
| Ingestion.Screen | SLICEop/downloads/daily_Twater.py:104-113 | a sample survives both screens if and only if it passes the first screen and lies less than 3 degrees above the mean of its day's first-screen survivors |
| Ingestion.DayMeanOfKept | SLICEop/downloads/daily_Twater.py:108-111 | the deviation from the day mean is always defined where it is needed: every first-screen survivor's day has a mean |
| Ingestion.ScreenBounds | SLICEop/downloads/daily_Twater.py:106-112 | every sample kept by the screen is below 30 degrees and less than 3 degrees above its day's mean |
| Ingestion.DateText | SLICEop/downloads/daily_Twater.py:140 | the freeze-up date written is at most ten characters, the date part of the timestamp |
| Ingestion.FreezeStep | SLICEop/downloads/daily_Twater.py:131-144 | the frozen marker flips to `True` with the last day's date exactly when the last daily mean is below 0.75 and the marker read `False`; otherwise both files are left as they were |
| Ingestion.Finish | SLICEop/downloads/daily_Twater.py:96-144 | after an update the store is strictly sorted and non-empty, the next index is saved, `updated` is `True` and the frozen files follow the freeze step on the last stored day |
| Ingestion.FinishStore | SLICEop/downloads/daily_Twater.py:116-120 | after an update the store holds the old days and the new daily means merged by date, the first (stored) occurrence of a date winning; only the means of this run's batch are added |
| Ingestion.StoreMerge | SLICEop/downloads/daily_Twater.py:116-120 | every day already in a strictly sorted store survives the merge unchanged, and the result stays strictly sorted |
| Ingestion.Collect | SLICEop/downloads/daily_Twater.py:54-94 | when files are gathered the store was non-empty (its last date decided the gate) |
| Ingestion.Gather | SLICEop/downloads/daily_Twater.py:61-94 | the imperative gathering loop computes what the reference gathering function does on the directory's read results |
| Ingestion.GatherFiles | SLICEop/downloads/daily_Twater.py:66-89 | once the gate is open, the loop over the numbered files computes the reference gathering of their read results |
| Ingestion.ReadBatches | SLICEop/downloads/daily_Twater.py:68-85 | the imperative file loop returns exactly the reference loop's batch and next index |
| Ingestion.Run | SLICEop/downloads/daily_Twater.py:44-144 | a run that does not update leaves the store, the flags and the marker as they were; without a full day nothing at all changes, and the only other file a failed run can rewrite is `next.i`, to the index where the loop stopped |
| Ingestion.AfterLoop | SLICEop/downloads/daily_Twater.py:86-104 | after the loop `next.i` is always written; the job then crashes in the derivative exactly when the merged batch has fewer than two distinct times, leaving all else as it was, and otherwise performs the update |
| Ingestion.ShortBatchSkipsFiles | SLICEop/downloads/daily_Twater.py:86-104 | a gathered batch with a single time crashes the job with the store and flags untouched but `next.i` strictly advanced, so its files are never read again |
| Ingestion.GateClosedChangesNothing | SLICEop/downloads/daily_Twater.py:57-94 | when yesterday's end is not after the day following the last stored day, the run reports no full day and changes nothing |
| Ingestion.NextIndexAdvances | SLICEop/downloads/daily_Twater.py:63-90 | an updating run saves a strictly larger next index, all files in between exist, and the saved one (when readable) ends after yesterday |
| Ingestion.CrashCauses | SLICEop/downloads/daily_Twater.py:66-78 | a crash comes only from an empty store, a missing or unreadable starting file, or an unreadable file right after it (the shift has no batch to use) |
| Ingestion.FrozenOneWay | SLICEop/downloads/daily_Twater.py:131-144 | a run changes the frozen files only from `False` to `True`, with the date of a freezing last day |
| Ingestion.FrozenSticks | SLICEop/downloads/daily_Twater.py:138 | once the marker is `True`, any sequence of daily runs keeps it and the freeze-up date |
| Ingestion.Station.constructor | SLICEop/downloads/daily_Twater.py:45-48 | the station object holds the given stored files |
| Ingestion.Station.Ingest | SLICEop/downloads/daily_Twater.py:44-144 | one run writes `next.i` before the derivative can crash, then updates the remaining files, ending in exactly the outcome and state of the reference run |
| Ingestion.Station.SetState | SLICEop/downloads/daily_Twater.py:88-90 | overwriting the stored files leaves exactly the given ones |
| InitialIngestion.Smooth | SLICEop/downloads/initial_Twater.py:63-69 | a daily mean survives if and only if it is present, its change (in units of two days) is at most 6 and it is at most 30 degrees; survivors are unchanged |
| InitialIngestion.Extension | SLICEop/downloads/initial_Twater.py:72-79 | the two-year climatological extension exists exactly when the climatology has 366 days; day k of 2022-2023 carries climatology day k mod 365, dropping the 366th day |
| InitialIngestion.ExtensionPrefix | SLICEop/downloads/initial_Twater.py:77-79 | the first n extension days pair each date from 2022-01-01 with the repeated first 365 climatology values |
| InitialIngestion.ExtensionDayOfYear | SLICEop/downloads/initial_Twater.py:77-79 | extension day k falls on day of year k mod 365 + 1, in 2022 for the first 365 days and in 2023 after |
| InitialIngestion.LastMergedDay | SLICEop/downloads/initial_Twater.py:80-82 | the last extension day merged is 2023-11-14 |
| InitialIngestion.MergedExtension | SLICEop/downloads/initial_Twater.py:80-82 | selecting the extension up to 2023-11-14 keeps exactly its leading days through that date |
| InitialIngestion.SelectDays | SLICEop/downloads/initial_Twater.py:100-105 | on a daily series, a selection up to the end of a day keeps exactly the days through that day |
| InitialIngestion.SelectStrict | SLICEop/downloads/initial_Twater.py:100-105 | a date-range selection of a strictly sorted series stays strictly sorted |
| InitialIngestion.SelectInjective | SLICEop/downloads/initial_Twater.py:100-105 | a selection of a strictly sorted series has no repeated sample |
| InitialIngestion.ReadColumn | SLICEop/downloads/initial_Twater.py:123-129 | a five-column file yields column 1, a six-column file column 2, any other width aborts |
| InitialIngestion.Stamp | SLICEop/downloads/initial_Twater.py:135-143 | file values get consecutive minutes of the reconstructed time grid starting at the running offset |
| InitialIngestion.StampFromSpec | SLICEop/downloads/initial_Twater.py:132-143 | stamping the untimed files succeeds exactly when every file reads and the grid is long enough, and then value k gets grid minute k |
| InitialIngestion.StampManualFiles | SLICEop/downloads/initial_Twater.py:132-143 | the imperative stamping loop over files 4836 to 4859 computes the reference stamping |
| InitialIngestion.StampFilesFrom | SLICEop/downloads/initial_Twater.py:132-143 | the stamping loop from any first file up to file 4859, starting at grid minute 0, computes the reference stamping |
| InitialIngestion.StampFromStep | SLICEop/downloads/initial_Twater.py:135-143 | stamping one file that reads moves its values onto the grid at the running offset and continues with the next file after them |
| InitialIngestion.Merge | SLICEop/downloads/initial_Twater.py:106 | a merge is strictly sorted and holds exactly the dates of both inputs; where both hold a date only the first input's sample is kept, a case the script avoids by merging parts of disjoint periods |
| InitialIngestion.DropLast | SLICEop/downloads/initial_Twater.py:44-46 | the last row of the historical table is dropped, and an empty table stays empty |
| InitialIngestion.Build | SLICEop/downloads/initial_Twater.py:44-147 | the combined record, when it can be built, is strictly sorted by date |
| InitialIngestion.Prepare | SLICEop/downloads/initial_Twater.py:44-106 | the record through the re-transferred thermistor data is strictly sorted |
| InitialIngestion.Assemble | SLICEop/downloads/initial_Twater.py:106-147 | adding the manually stamped daily means keeps the record strictly sorted |
| InitialIngestion.Store.constructor | SLICEop/downloads/initial_Twater.py:36-40 | the store starts with the given existing files and no content written |
| InitialIngestion.Store.Initialize | SLICEop/downloads/initial_Twater.py:36-161 | when the permanent file exists the run aborts and changes nothing; otherwise it returns the built record and, on success, writes it to both the permanent and the updated file and writes 4860 as the next index |
| InitialIngestion.Store.Write | SLICEop/downloads/initial_Twater.py:152-161 | writing stores the record in both series files and the next index 4860, adding exactly those three files |
| YearlyQc.DerivativesIgnoreGaps | SLICEop/prepro/yearly_preprocess.py:36-37 | the first and second derivatives see a missing day as the last value before it: the record and its gap-filled copy have the same derivatives |
| YearlyQc.ForwardFillTwice | SLICEop/prepro/yearly_preprocess.py:36 | forward filling an already filled series changes nothing |
| YearlyQc.StuckFlags | SLICEop/prepro/yearly_preprocess.py:41 | one flag per day: rate of change below the threshold while the temperature is above 2 degrees |
| YearlyQc.RunEnd | SLICEop/prepro/yearly_preprocess.py:42-48 | the end of a run of flags is the last flagged day before an unflagged day or the end of the record |
| YearlyQc.RunStart | SLICEop/prepro/yearly_preprocess.py:42-48 | the start of a run is the first flagged day after an unflagged day or the start of the record |
| YearlyQc.RunBounds | SLICEop/prepro/yearly_preprocess.py:42-48 | every day of a maximal run finds that run's first and last day |
| YearlyQc.LongRunIsSevenInARow | SLICEop/prepro/yearly_preprocess.py:42-48 | a day lies in a run spanning at least 6 index steps exactly when it lies in some window of seven consecutive flagged days |
| YearlyQc.StuckMasked | SLICEop/prepro/yearly_preprocess.py:42-48 | masking stuck runs keeps the length of the series |
| YearlyQc.MaskStuckRuns | SLICEop/prepro/yearly_preprocess.py:42-48 | the in-place loop over runs leaves the array equal to the masked series |
| YearlyQc.JumpFlags | SLICEop/prepro/yearly_preprocess.py:50-52 | a day is a jump exactly when its second derivative exceeds the bound in absolute value |
| YearlyQc.HighFlags | SLICEop/prepro/yearly_preprocess.py:55-59 | one flag per day for the deviation from the day-of-year climatology |
| YearlyQc.Masked | SLICEop/prepro/yearly_preprocess.py:52 | masking keeps the length of the series |
| YearlyQc.MaskedOnlyRemoves | SLICEop/prepro/yearly_preprocess.py:52 | a value survives a mask exactly when it was present and not flagged, and then unchanged |
| YearlyQc.ApplyMask | SLICEop/prepro/yearly_preprocess.py:59 | the in-place mask leaves the array equal to the masked series |
| YearlyQc.Floored | SLICEop/prepro/yearly_preprocess.py:61 | negatives become 0, missing values stay missing, non-negative values are unchanged |
| YearlyQc.FloorAtZero | SLICEop/prepro/yearly_preprocess.py:61 | the in-place floor leaves the array equal to the floored series |
| YearlyQc.ForwardFill | SLICEop/prepro/yearly_preprocess.py:37 | forward fill keeps present values and gives a missing value the one before it |
| YearlyQc.Unstuck | SLICEop/prepro/yearly_preprocess.py:35-48 | removing stuck periods keeps one value per day |
| YearlyQc.Screened | SLICEop/prepro/yearly_preprocess.py:35-61 | the processed series keeps one value per day |
| YearlyQc.Clean | SLICEop/prepro/yearly_preprocess.py:35-65 | the imperative run of the screens on one array yields the reference processed series |
| YearlyQc.Winter | SLICEop/prepro/yearly_preprocess.py:74-76 | the winter series keeps one value per day |
| YearlyQc.WinterKeeps | SLICEop/prepro/yearly_preprocess.py:74-76 | a day counts as frozen-river winter exactly when its processed value is present, at most 2 degrees and neither derivative exceeds 0.1 in absolute value; the value is then unchanged |
| YearlyQc.WinterSamples | SLICEop/prepro/yearly_preprocess.py:74-76 | the imperative masking yields the winter series |
| YearlyQc.EveryFourth | SLICEop/prepro/yearly_preprocess.py:78-79 | taking every fourth quarter keeps quarters 0, 4, 8, and so on |
| YearlyQc.WinterMeans | SLICEop/prepro/yearly_preprocess.py:78-81 | each winter mean is the December quarter's mean, dated 45 days after the quarter start |
| YearlyQc.Offsets | SLICEop/prepro/yearly_preprocess.py:83-100 | the offset series has one entry per day |
| YearlyQc.WinterValueNearest | SLICEop/prepro/yearly_preprocess.py:89-99 | the winter value of a year is the mean of a quarter whose start is at least as near to January 15 of that year as any other, and strictly nearer than every later one (the later of two equally near quarters wins) |
| YearlyQc.Winters | SLICEop/prepro/yearly_preprocess.py:86-99 | one winter value per year from the first to the last |
| YearlyQc.OffsetBySeason | SLICEop/prepro/yearly_preprocess.py:83-100 | May to November days get no offset; January to April days, and December days before the last year, get the winter mean nearest January 15 of their season; the last December gets none; two days of one winter get the same offset |
| YearlyQc.DayOffset | SLICEop/prepro/yearly_preprocess.py:86-99 | after the loop a day of May to November, or the last December, has no offset, and any other winter day the entry of its winter |
| YearlyQc.AssignYear | SLICEop/prepro/yearly_preprocess.py:89-99 | one pass of the year loop, with that year's winter value, rebinds that year's December-of-previous and January-April days and keeps every other offset |
| YearlyQc.AssignOffsets | SLICEop/prepro/yearly_preprocess.py:86-99 | the imperative year loop yields the reference offset series |
| YearlyQc.Difference | SLICEop/prepro/yearly_preprocess.py:102 | subtracting the offset keeps one value per day |
| YearlyQc.NoOffset | SLICEop/prepro/yearly_preprocess.py:102-104 | the offset-free value exists exactly when both the value and its offset exist; it is never negative and equals their difference when that is non-negative |
| YearlyQc.RemoveOffset | SLICEop/prepro/yearly_preprocess.py:102-104 | the imperative subtraction and floor yield the offset-free series |
| YearlyQc.Indicator | SLICEop/prepro/yearly_preprocess.py:120-121 | the frozen indicator is 1 for a value in (0, 0.75] and 0 for 0, for a value above 0.75 and for a missing value (a negative value is passed through) |
| YearlyQc.Indicators | SLICEop/prepro/yearly_preprocess.py:120-121 | the indicator series has one entry per day |
| YearlyQc.BinEdges | SLICEop/prepro/yearly_preprocess.py:123-126 | the edges are November 1 of each year followed by May 31 of the next, from the first to the last year |
| YearlyQc.BuildBinEdges | SLICEop/prepro/yearly_preprocess.py:123-126 | the imperative loop builds exactly those edges |
| YearlyQc.KeptBins | SLICEop/prepro/yearly_preprocess.py:129-130 | keeping every other bin keeps the bins that start at an even edge |
| YearlyQc.KeptBinsAreWinters | SLICEop/prepro/yearly_preprocess.py:129-130 | the kept bins are exactly the winters November 1 to May 31, one per year from the first to the last but one |
| YearlyQc.BinContents | SLICEop/prepro/yearly_preprocess.py:129-130 | a bin holds exactly the days inside it (after November 1, through May 31) with their indicators |
| YearlyQc.FreezeUpIndex | SLICEop/prepro/yearly_preprocess.py:129-130 | the freeze-up position lies inside the bin |
| YearlyQc.FreezeUpIsFirstFrozen | SLICEop/prepro/yearly_preprocess.py:129-130 | in a 0/1 bin the freeze-up is the first frozen day, and the bin's first day when none is frozen |
| YearlyQc.FreezeUpOfFirstMaximum | SLICEop/prepro/yearly_preprocess.py:129-130 | `idxmax` of a bin is the date of a largest indicator, and no earlier day holds an equally large one |
| YearlyQc.FreezeUps | SLICEop/prepro/yearly_preprocess.py:129-130 | one freeze-up per bin, taken from that bin; a bin without days (ruled out on the gap-free daily index the job reads) yields no freeze-up here rather than NaT |
| YearlyQc.FreezeUpInBin | SLICEop/prepro/yearly_preprocess.py:129-130 | each freeze-up date is a day of the record inside its own winter |
| YearlyQc.FreezeUpsValid | SLICEop/prepro/yearly_preprocess.py:129-130 | every freeze-up is a valid calendar date |
| YearlyQc.WinterFreezeUps | SLICEop/prepro/yearly_preprocess.py:123-132 | there is one freeze-up per year from the first to the last but one, each inside that year's winter |
| YearlyQc.FreezeUpDates | SLICEop/prepro/yearly_preprocess.py:118-132 | the freeze-up series has one valid date per year, each inside that year's winter |
| YearlyQc.WinterFreeze | SLICEop/prepro/yearly_preprocess.py:118-132 | one freeze-up date per winter, each valid and inside its winter's bin |
| YearlyQc.ExtractFreezeUps | SLICEop/prepro/yearly_preprocess.py:118-132 | the imperative extraction yields the reference freeze-up series |
| YearlyQc.Wrap | SLICEop/prepro/yearly_preprocess.py:135-142 | a day of year below 300 gets the length of the leap-test year added, and any day of year at least 1 ends at 300 or more |
| YearlyQc.Wrapped | SLICEop/prepro/yearly_preprocess.py:135-142 | wrapping keeps one entry per freeze-up |
| YearlyQc.WrapDaysOfYear | SLICEop/prepro/yearly_preprocess.py:135-142 | the in-place loop leaves the array equal to the wrapped series |
| YearlyQc.DaysOfYear | SLICEop/prepro/yearly_preprocess.py:135 | entry k is the day of year of freeze-up k |
| YearlyQc.FudoyAtLeast300 | SLICEop/prepro/yearly_preprocess.py:135-142 | every freeze-up day of year ends at 300 or more after wrapping |
| YearlyQc.Fudoy | SLICEop/prepro/yearly_preprocess.py:135-142 | each freeze-up day of year is at least 300 and is its calendar day of year, plus a year length when it falls in January to May |
| YearlyQc.ComputeFudoy | SLICEop/prepro/yearly_preprocess.py:135-142 | the imperative computation yields the reference day-of-year series |
| YearlyQc.MinOf | SLICEop/prepro/yearly_preprocess.py:84 | the minimum is an element no larger than any other |
| YearlyQc.MaxOf | SLICEop/prepro/yearly_preprocess.py:85 | the maximum is an element no smaller than any other |
| YearlyQc.YearMax | SLICEop/prepro/yearly_preprocess.py:84-85 | the last year of the record is not before the first |
| YearlyQc.Range | SLICEop/prepro/yearly_preprocess.py:132 | the freeze-up years run from the first year up to, not including, the last |
| YearlyQc.CommonPeriod | SLICEop/prepro/yearly_preprocess.py:199-204 | the common period exists when both series have years, and starts at the later start and ends at the earlier end |
| YearlyQc.SelectPredictors | SLICEop/prepro/yearly_preprocess.py:206 | the predictor rows kept are exactly those whose year lies in the period extended by one year |
| YearlyQc.SelectFudoy | SLICEop/prepro/yearly_preprocess.py:207 | the `end + 1` slice of the FUDoy series keeps exactly the (year, FUDoy) pairs whose year lies between the period's start and its end plus one |
| YearlyQc.AlignFudoy | SLICEop/prepro/yearly_preprocess.py:207 | assigning the FUDoy column into the dataset gives every predictor row the FUDoy of its own year, or NaN when the sliced series has no such year |
| YearlyQc.AlignedFudoyOfRange | SLICEop/prepro/yearly_preprocess.py:199-207 | on the consecutive winters of the record, a year in the period finds the FUDoy of its own winter, and NaN outside the record |
| YearlyQc.AlignedRows | SLICEop/prepro/yearly_preprocess.py:199-207 | hence the whole FUDoy column written next to the selected predictors is aligned year by year |
| YearlyQc.OutputOk | SLICEop/prepro/yearly_preprocess.py:199-213 | the predictors file and the marker `preproy` are written exactly when the record spans at least one winter and there is some predictor year (otherwise `min` of an empty axis raises); the two files written before are stated by `YearlyQc.Job` |
| YearlyQc.OutputAligned | SLICEop/prepro/yearly_preprocess.py:199-209 | the predictors written are those of the common period extended by one year, each carrying the FUDoy of its own winter or NaN |
| YearlyQc.ExtraFudYearDropped | SLICEop/prepro/yearly_preprocess.py:199-207 | when the freeze-ups reach one winter past the predictors, the `end + 1` slice keeps that winter's FUDoy, yet no written row carries it |
| YearlyQc.ExtraEra5YearGetsNan | SLICEop/prepro/yearly_preprocess.py:199-207 | a predictor year one past the last freeze-up winter is written, with a NaN FUDoy |
| YearlyQc.SavedThrough | SLICEop/prepro/yearly_preprocess.py:110-111 | the saved water-temperature rows are exactly those dated up to December 31 of last year |
| YearlyQc.Derive | SLICEop/prepro/yearly_preprocess.py:35-104 | the offset-free series is the processed series minus the winter offset, floored at zero |
| YearlyQc.DeriveSeries | SLICEop/prepro/yearly_preprocess.py:35-104 | the imperative pipeline yields the reference processed, offset and offset-free series |
| YearlyQc.Output | SLICEop/prepro/yearly_preprocess.py:106-213 | the saved output holds the preprocessed store through December 31 of the previous year, the freeze-ups, their days of year, the winters first to last but one and the marker `True` |
| YearlyQc.Yearly | SLICEop/prepro/yearly_preprocess.py:20-29 | outside June the job aborts |
| YearlyQc.YearlyOutputShape | SLICEop/prepro/yearly_preprocess.py:20-213 | a successful June run writes one freeze-up per year from the first to the last but one, inside its winter, days of year at least 300 and the marker `True` |
| YearlyQc.RunYearly | SLICEop/prepro/yearly_preprocess.py:20-213 | the imperative job computes the reference job's result and the files it has written when it stops |
| YearlyQc.Saved | SLICEop/prepro/yearly_preprocess.py:106-111 | the preprocessed store holds no day after December 31 of the previous year |
| YearlyQc.Job | SLICEop/prepro/yearly_preprocess.py:20-213 | the job's result is `Yearly`; it completes exactly when it succeeds, a success has written the store, the FUD file and the marker, the FUD file is never written without the store, and a run outside June writes nothing |
| YearlyQc.StoreAndFudWritten | SLICEop/prepro/yearly_preprocess.py:106-145 | a June run with winter means and freeze-ups writes the preprocessed store and the FUD file, whatever the predictors |
| YearlyQc.EmptyPeriodKeepsFiles | SLICEop/prepro/yearly_preprocess.py:110-202 | a June run whose record spans no winter, or that has no predictor year, fails at `min` after writing the store and the FUD file (one with no winter when the record has none) |
| Predictors.SeasonYear | SLICEop/prepro/monthly_preprocess.py:28-33 | January to April give the previous year, July to December the current one, and May and June stop the job with "Nothing to do in May and June" |
| Predictors.SeasonYearContains | SLICEop/prepro/monthly_preprocess.py:30-33 | the season year exists exactly outside May and June, and is the year whose July-to-April season contains the current month |
| Predictors.WeeklySeasonYear | SLICEop/prepro/weekly_preprocess.py:33-40 | the weekly job has the monthly season year, except that before July 7 it aborts because no forecast has been issued |
| Predictors.LastDayValid | SLICEop/prepro/monthly_preprocess.py:37-41 | each predictor's last day (December 31, November 30, September 30) is a valid date |
| Predictors.MonthlyIssue | SLICEop/prepro/monthly_preprocess.py:50-55 | the monthly job reads the forecast issued in the predictor month once that month is past, else the one issued this month |
| Predictors.MonthlyIssueIsEarlier | SLICEop/prepro/monthly_preprocess.py:50-55 | the issue month read is the earlier of the predictor month and the current month |
| Predictors.WeeklyIssue | SLICEop/prepro/weekly_preprocess.py:60-73 | the weekly job's issue month is a proper month |
| Predictors.WeeklyIssueVersusMonthly | SLICEop/prepro/weekly_preprocess.py:60-73 | the weekly job reads the monthly job's issue, except in the first six days of a month not past the predictor month, when it reads the previous month's issue (December in January) |
| Predictors.ChooseSource | SLICEop/prepro/monthly_preprocess.py:57-142 | full ERA5 is used exactly when its file exists; the job aborts with the variable name followed by `not found` exactly when neither ERA5 nor the forecast file exists; ERA5 splicing happens exactly when only the forecast and the partial ERA5 file exist |
| Predictors.Era5NameDistinct | SLICEop/prepro/monthly_preprocess.py:48-49 | two ERA5 file names are equal only for the same year, month and variable, so no two predictors or years share a file |
| Predictors.Seas51NameDistinct | SLICEop/prepro/monthly_preprocess.py:50-55 | two SEAS5.1 file names are equal only for the same year, issue month and variable |
| Predictors.ToCelsius | SLICEop/prepro/monthly_preprocess.py:80-81 | only 2 m temperature given in kelvin is converted, by subtracting 273.15; everything else is unchanged |
| Predictors.ShiftedMonth | SLICEop/prepro/monthly_preprocess.py:84 | moving back 30 minutes changes the month exactly for the midnight hour of the first, into the month before (December for January) |
| Predictors.MonthValues | SLICEop/prepro/monthly_preprocess.py:85-101 | the values grouped into a month are exactly the hourly values that fall in that month (after the 30-minute shift for sums) |
| Predictors.Era5Value | SLICEop/prepro/monthly_preprocess.py:83-104 | the ERA5 monthly value exists exactly when some hour falls in the predictor month |
| Predictors.CelsiusValues | SLICEop/prepro/monthly_preprocess.py:80-81 | definition, elementwise: every value is converted the same way |
| Predictors.Celsius | SLICEop/prepro/monthly_preprocess.py:117-118 | converting a forecast keeps its shape and steps and converts every member value |
| Predictors.DayNumbers | SLICEop/prepro/monthly_preprocess.py:126 | definition, elementwise: each step date becomes its day number |
| Predictors.StepsInMonth | SLICEop/prepro/monthly_preprocess.py:131-133 | the steps selected are exactly those in the predictor month |
| Predictors.Pick | SLICEop/prepro/monthly_preprocess.py:131-133 | definition, elementwise: picking steps reads the member row at those steps |
| Predictors.SeasAggregate | SLICEop/prepro/monthly_preprocess.py:120-136 | one value per member; a sum reads the step nearest the predictor's last day, a mean averages the steps in the predictor month; it fails exactly when the forecast has no steps, or a mean has none in its month |
| Predictors.SumReadsLastDay | SLICEop/prepro/monthly_preprocess.py:123-127 | when a step falls on the last day itself, the sum is each member's value there |
| Predictors.MemberMean | SLICEop/prepro/monthly_preprocess.py:138-140 | the ensemble mean is the mean of the members, missing when there are none |
| Predictors.MemberMeanOfEqual | SLICEop/prepro/monthly_preprocess.py:138-140 | the mean of equal members is that value |
| Predictors.SeasEntries | SLICEop/prepro/monthly_preprocess.py:128-140 | a forecast contributes exactly the member values under the variable name and their mean under the mean key |
| Predictors.KeysDisjoint | SLICEop/prepro/monthly_preprocess.py:37-41 | two predictors never write the same key |
| Predictors.Collect | SLICEop/prepro/monthly_preprocess.py:46-142 | collecting succeeds exactly when every predictor does, and otherwise fails with the first failure |
| Predictors.CollectStep | SLICEop/prepro/monthly_preprocess.py:46-142 | one more successful predictor adds its keys to the dataset |
| Predictors.CollectStops | SLICEop/prepro/monthly_preprocess.py:141-142 | the first failing predictor ends the job with its error |
| Predictors.CollectUnion | SLICEop/prepro/monthly_preprocess.py:46-142 | with disjoint keys, the dataset holds every contribution unchanged and nothing else |
| Predictors.CollectVariables | SLICEop/prepro/monthly_preprocess.py:46-142 | the three predictors' contributions are all kept unchanged, and nothing else is written |
| Predictors.HoldsAllAt | SLICEop/prepro/monthly_preprocess.py:46-142 | each key a predictor contributes is in the dataset with its value |
| MonthlyPrepro.Entry | SLICEop/prepro/monthly_preprocess.py:48-142 | the full ERA5 month writes only the mean key, holding the ERA5 monthly value, exactly when its file exists; otherwise the forecast writes its member values and their mean (failing exactly when its aggregation does); neither file aborts with `not found` |
| MonthlyPrepro.Entries | SLICEop/prepro/monthly_preprocess.py:46-142 | one contribution per predictor, in order, each within that predictor's keys |
| MonthlyPrepro.Monthly | SLICEop/prepro/monthly_preprocess.py:28-145 | in May and June the job does nothing |
| MonthlyPrepro.MonthlyWritesAll | SLICEop/prepro/monthly_preprocess.py:144-149 | the dataset and the marker are written exactly when the month is not May or June and every predictor resolves; the dataset then holds each contribution unchanged and nothing else |
| MonthlyPrepro.MonthlyHasMeans | SLICEop/prepro/monthly_preprocess.py:92 | every predictor's mean key is written on success |
| MonthlyPrepro.RunMonthly | SLICEop/prepro/monthly_preprocess.py:46-149 | the imperative predictor loop computes the reference job |
| Splice.DistinctDays | SLICEop/prepro/weekly_preprocess.py:160 | the days of the partial ERA5 file, each listed once and in order of first appearance; this is the sorted day axis of `resample` because the file's hours come in time order |
| Splice.HoursOn | SLICEop/prepro/weekly_preprocess.py:160 | a day that occurs in the file has at least one hour |
| Splice.KeptDays | SLICEop/prepro/weekly_preprocess.py:163-175 | the daily values kept are exactly the days in the predictor month (from its first) that have 24 hours, each with its daily sum or mean |
| Splice.DailySeries | SLICEop/prepro/weekly_preprocess.py:159-175 | the daily ERA5 series holds exactly the kept days of the file, each with its daily aggregate |
| Splice.Values | SLICEop/prepro/weekly_preprocess.py:197 | definition, elementwise: the values of the daily series, in order |
| Splice.Width | SLICEop/prepro/weekly_preprocess.py:196-249 | the block `i1:i2+1` is non-empty exactly when i1 is at most i2 |
| Splice.Shape | SLICEop/prepro/weekly_preprocess.py:195-198 | a single ERA5 day becomes a column (`[:, None]`), several a row |
| Splice.AddBroadcast | SLICEop/prepro/weekly_preprocess.py:234-237 | adding two vectors works exactly when their lengths match or one has length 1, and adds them element-wise when they match |
| Splice.Spliced | SLICEop/prepro/weekly_preprocess.py:196-249 | splicing keeps the grid's shape and sets each cell as the plan says |
| Splice.SplicedKeepsOutside | SLICEop/prepro/weekly_preprocess.py:196-249 | steps before the block, and after it when nothing is rebased, keep their forecast values |
| Splice.SplicedInBlock | SLICEop/prepro/weekly_preprocess.py:196-249 | steps inside the block get the plan's fill values |
| Splice.RebaseKeepsIncrements | SLICEop/prepro/weekly_preprocess.py:203-207 | after rebasing a sum, the forecast's increments after the block are unchanged, so the accumulated total continues from the spliced value |
| Splice.Grid | SLICEop/prepro/weekly_preprocess.py:176-178 | definition, elementwise: the member-by-step grid read off the array |
| Splice.FillBlock | SLICEop/prepro/weekly_preprocess.py:196-249 | the in-place assignment changes exactly the block's cells, to the fill values |
| Splice.RebaseTail | SLICEop/prepro/weekly_preprocess.py:203-207 | every step after the block is shifted by the change made at its last step, per member |
| Splice.SpliceGrid | SLICEop/prepro/weekly_preprocess.py:196-249 | the in-place splice leaves the array equal to the reference spliced grid |
| Splice.PyIndex | SLICEop/prepro/weekly_preprocess.py:230 | a negative index counts from the end, as `i1-1` does when i1 is 0 |
| Splice.ColumnOf | SLICEop/prepro/weekly_preprocess.py:192 | definition, elementwise: the column of one step, one value per member |
| Splice.LastStep | SLICEop/prepro/weekly_preprocess.py:188 | the block ends at a step of the forecast |
| Splice.FirstStep | SLICEop/prepro/weekly_preprocess.py:221 | the block start is a step of the forecast |
| Splice.Checked | SLICEop/prepro/weekly_preprocess.py:196-249 | a plan is carried out exactly when its values fit the block, and numpy refuses it otherwise |
| Splice.PerMemberSums | SLICEop/prepro/weekly_preprocess.py:234-237 | the intended fill: each member's value before the block plus the running ERA5 sum |
| Splice.BroadcastSums | SLICEop/prepro/weekly_preprocess.py:234-237 | the fill as written exists exactly when the member count and the number of days match, or one of them is 1 |
| Splice.SplicePlan | SLICEop/prepro/weekly_preprocess.py:183-249 | the block ends at the step of the last ERA5 day, starts at step 0 for a same-month issue and at the step of the first ERA5 day otherwise, and rebases exactly for sums |
| Splice.PlanAt | SLICEop/prepro/weekly_preprocess.py:196-249 | a plan between given steps fits the grid and rebases exactly for sums |
| Splice.SameMonthFill | SLICEop/prepro/weekly_preprocess.py:196-216 | a same-month issue drops the first ERA5 day and writes the running sum for sums, the daily values for means |
| Splice.EarlierFill | SLICEop/prepro/weekly_preprocess.py:226-249 | an earlier issue writes the per-member continuation for sums, the daily values for means |
| Splice.SplicePlanAsWritten | SLICEop/prepro/weekly_preprocess.py:226-242 | as the code is written: identical to the intended plan for means and same-month issues, and for earlier-issue sums it succeeds only when members and days match or one is 1 |
| Splice.SameMonthSplice | SLICEop/prepro/weekly_preprocess.py:183-216 | when the issue is from the ERA5 month and step 1 is the 2nd, steps up to the last ERA5 day hold the ERA5 value of the day (means) or the ERA5 total since the 1st (sums) |
| Splice.SameMonthCells | SLICEop/prepro/weekly_preprocess.py:196-216 | the same cell values once the block is known to end at the last ERA5 day |
| Splice.SameMonthPlan | SLICEop/prepro/weekly_preprocess.py:196-216 | the same-month plan carries the same-month fill |
| Splice.SameMonthBlock | SLICEop/prepro/weekly_preprocess.py:186-188 | with dates aligned, the block of a same-month issue ends at its step for the last ERA5 day |
| Splice.SameMonthSingleDayStops | SLICEop/prepro/weekly_preprocess.py:195-198 | a same-month issue with a single ERA5 day has nothing to write after dropping it, and the assignment fails |
| Splice.EarlierMonthBlock | SLICEop/prepro/weekly_preprocess.py:219-223 | with dates aligned, the block of an earlier issue runs from the first to the last ERA5 day, after step 0 |
| Splice.EarlierMonthSplice | SLICEop/prepro/weekly_preprocess.py:219-249 | with an earlier issue, each block step holds the ERA5 daily value (means) or, per member, the forecast value before the block plus the ERA5 total so far (sums) |
| Splice.EarlierMonthCells | SLICEop/prepro/weekly_preprocess.py:219-249 | the same cell values once the block is known to span the ERA5 days |
| Splice.EarlierMonthPlan | SLICEop/prepro/weekly_preprocess.py:219-249 | the earlier-issue plan carries the earlier-issue fill |
| Splice.EarlierPlanAt | SLICEop/prepro/weekly_preprocess.py:219-249 | the plan between the ERA5 days' steps is that fill, rebasing for sums |
| Splice.PerMemberBlock | SLICEop/prepro/weekly_preprocess.py:234-237 | the per-member fill writes each member's own continuation |
| Splice.RowBlock | SLICEop/prepro/weekly_preprocess.py:248-249 | a row fill writes the same ERA5 values for every member |
| Splice.BroadcastSumStops | SLICEop/prepro/weekly_preprocess.py:234-237 | with two or more members and a different number of ERA5 days, the code as written fails where the intended plan succeeds |
| Splice.ExampleAligned | SLICEop/prepro/weekly_preprocess.py:219-223 | the example forecast is issued before the ERA5 month and aligned with its days |
| Splice.BroadcastSumMixesMembers | SLICEop/prepro/weekly_preprocess.py:234-237 | on two members and two ERA5 days, member 0 ends up with 23 at the last ERA5 step, built from member 1's value, where its own continuation is 13 |
| Splice.ExampleCumSum | SLICEop/prepro/weekly_preprocess.py:236 | the example's running ERA5 sums are 1 and 3 |
| Splice.ExampleBroadcast | SLICEop/prepro/weekly_preprocess.py:234-237 | the broadcast pairs member i's value with day i: [11, 23] |
| WeeklyPrepro.PartialDays | SLICEop/prepro/weekly_preprocess.py:159-175 | the daily ERA5 values taken from the partial file are dated, one per kept day |
| WeeklyPrepro.Updated | SLICEop/prepro/weekly_preprocess.py:136-249 | splicing the partial ERA5 month into a forecast keeps its units, steps and number of members |
| WeeklyPrepro.SpliceDays | SLICEop/prepro/weekly_preprocess.py:176-249 | a splice keeps the forecast's shape; a forecast without steps or a partial file without kept days fails, as indexing its first element does |
| WeeklyPrepro.AsWrittenDiffersOnlyForEarlierSums | SLICEop/prepro/weekly_preprocess.py:196-249 | for means, and for a forecast issued in the ERA5 month itself, the splice as written is the intended splice |
| WeeklyPrepro.EarlierSumStops | SLICEop/prepro/weekly_preprocess.py:226-237 | for a sum forecast issued before the ERA5 month, with at least two members and at least two ERA5 days and unequal counts, the splice as written fails while the intended one succeeds |
| WeeklyPrepro.UpdatedStops | SLICEop/prepro/weekly_preprocess.py:136-249 | under those conditions the scripts' update of the forecast with the partial ERA5 month fails |
| WeeklyPrepro.PartialEntry | SLICEop/prepro/weekly_preprocess.py:125-275 | a predictor with the forecast and a partial ERA5 file contributes the updated forecast's members and mean |
| WeeklyPrepro.WeeklyEntryStops | SLICEop/prepro/weekly_preprocess.py:226-277 | hence the scripts' weekly job stops with an error for snowfall in those conditions, where the intended one would write the spliced forecast |
| WeeklyPrepro.RunUpdated | SLICEop/prepro/weekly_preprocess.py:136-249 | the imperative update computes the reference update |
| WeeklyPrepro.RunSpliceDays | SLICEop/prepro/weekly_preprocess.py:176-249 | loading the grid into an array and splicing it in place computes the reference splice |
| WeeklyPrepro.Load | SLICEop/prepro/weekly_preprocess.py:176-178 | a fresh member-by-step array holds the forecast grid |
| WeeklyPrepro.SpliceMembers | SLICEop/prepro/weekly_preprocess.py:196-249 | the forecast after the in-place splice is the reference spliced forecast |
| WeeklyPrepro.SeasForecast | SLICEop/prepro/weekly_preprocess.py:125-133 | the forecast is read from the weekly issue's file and converted to Celsius, keeping its shape |
| WeeklyPrepro.WeeklyEntry | SLICEop/prepro/weekly_preprocess.py:75-277 | a predictor writes exactly its two keys, the values and their mean |
| WeeklyPrepro.Era5Entries | SLICEop/prepro/weekly_preprocess.py:110-121 | the full ERA5 month writes exactly the predictor's two keys, both holding its monthly value |
| WeeklyPrepro.SeasContribution | SLICEop/prepro/weekly_preprocess.py:250-275 | the forecast (spliced or not) contributes exactly the member values and their mean |
| WeeklyPrepro.WeeklyEntryCases | SLICEop/prepro/weekly_preprocess.py:75-121 | with the full ERA5 month present, the job succeeds exactly when its value is defined and writes it under both keys; with neither file it aborts with "not found" |
| WeeklyPrepro.WeeklyAgreesWithMonthly | SLICEop/prepro/weekly_preprocess.py:60-121 | with the same forecast file and no partial ERA5 file, the weekly job succeeds exactly when the monthly one does and writes everything the monthly job writes, plus the ERA5 value under the variable name |
| WeeklyPrepro.KeptDaysComplete | SLICEop/prepro/weekly_preprocess.py:160-175 | when every day has its 24 hours, the full-day filter keeps the same days as the older copy without it |
| WeeklyPrepro.PartialDaysComplete | SLICEop/preprocess/weekly_preprocess.py:92-95 | when every day is complete, the two copies take the same daily ERA5 values |
| WeeklyPrepro.PlanAtNoReshape | SLICEop/prepro/weekly_preprocess.py:195-198 | with other than one ERA5 day, the `[:, None]` reshape makes no difference to a plan |
| WeeklyPrepro.SplicePlanNoReshape | SLICEop/prepro/weekly_preprocess.py:195-198 | with several ERA5 days the splice plan does not depend on the reshape |
| WeeklyPrepro.SpliceDaysNoReshape | SLICEop/preprocess/weekly_preprocess.py:103 | so the older copy, which never reshapes, splices the same way unless there is exactly one day |
| WeeklyPrepro.UpdatedAgree | SLICEop/preprocess/weekly_preprocess.py:92-116 | with complete days and other than one kept day, both copies update a forecast identically |
| WeeklyPrepro.PartialEntriesAgree | SLICEop/preprocess/weekly_preprocess.py:92-116 | when the partial ERA5 month is spliced into the forecast, with complete days and other than one kept day, both copies write the same contribution |
| WeeklyPrepro.ScriptsAgree | SLICEop/preprocess/weekly_preprocess.py:92-116 | under the same conditions both copies write the same predictor contribution |
| WeeklyPrepro.RunWeeklyEntry | SLICEop/prepro/weekly_preprocess.py:75-277 | the imperative predictor step computes the reference contribution |
| WeeklyPrepro.WeeklyEntries | SLICEop/prepro/weekly_preprocess.py:53-277 | one contribution per predictor, in order, each with exactly its keys |
| WeeklyPrepro.Weekly | SLICEop/prepro/weekly_preprocess.py:31-40 | nothing to do in May and June, and no run before July 7 |
| WeeklyPrepro.WeeklyRuns | SLICEop/prepro/weekly_preprocess.py:31-40 | the job succeeds exactly when the date is outside May, June and the first days of July and every predictor resolves |
| WeeklyPrepro.WeeklyWritesAll | SLICEop/prepro/weekly_preprocess.py:279-285 | the dataset and the marker are written exactly when the date allows a run and every predictor resolves; the dataset then holds each contribution unchanged and nothing else |
| WeeklyPrepro.WeeklyHolds | SLICEop/prepro/weekly_preprocess.py:279-285 | a dataset that is written holds every predictor's contribution unchanged and no key from anywhere else |
| WeeklyPrepro.WeeklyHasAllKeys | SLICEop/prepro/weekly_preprocess.py:121 | on success every predictor has both its value key and its mean key |
| WeeklyPrepro.RunWeekly | SLICEop/prepro/weekly_preprocess.py:31-285 | the imperative job computes the reference weekly job |
| WeeklyForecast.ForecastDateAsWritten | SLICEop/auto/weekly_forecast.py:72-92 | the date printed for a prediction, computed as the code does (rounding after subtracting 1 or 366), is a valid date |
| WeeklyForecast.ForecastDate | SLICEop/auto/weekly_forecast.py:72-92 | the intended date: up to day 365 the rounded prediction is the day of year in a common year and one day later in a leap year; past 365 it counts into the next year |
| WeeklyForecast.AsWrittenAgrees | SLICEop/auto/weekly_forecast.py:72-92 | away from exact halves, the code as written gives the intended date |
| WeeklyForecast.LeapShift | SLICEop/auto/weekly_forecast.py:79-80 | from March on, day n + 1 of a leap year has the month and day of day n of a common year |
| WeeklyForecast.YearBlind | SLICEop/auto/weekly_forecast.py:79-80 | as the comment promises, a prediction from day 60 to 365 gives the same calendar day in leap and common years |
| WeeklyForecast.TieBreaksYearBlindness | SLICEop/auto/weekly_forecast.py:81-92 | for a prediction of exactly 359.5 the code lands on day 359 in a common year but not on the same calendar day in a leap year, because halves round to even |
| WeeklyForecast.TieIn2023And2024 | SLICEop/auto/weekly_forecast.py:142-153 | the same discrepancy for seasons 2023 and 2024 |
| WeeklyForecast.RowTexts | SLICEop/auto/weekly_forecast.py:101-102 | definition, elementwise: one text line per log row |
| WeeklyForecast.NatToStringPlain | SLICEop/auto/weekly_forecast.py:162 | a member number contains no comma or newline |
| WeeklyForecast.RowRoundTrip | SLICEop/auto/weekly_forecast.py:101-102 | reading back a written row `issued,number,FUD` gives the row, and the row has no newline |
| WeeklyForecast.ParseRowsRoundTrip | SLICEop/auto/weekly_forecast.py:101-102 | reading back written rows gives them in order |
| WeeklyForecast.LogRoundTrip | SLICEop/auto/weekly_forecast.py:106-108 | reading back a log (header line, then rows) gives its rows |
| WeeklyForecast.AppendedSnoc | SLICEop/auto/weekly_forecast.py:99-103 | appending one more row adds a newline and its text |
| WeeklyForecast.AppendedToLog | SLICEop/auto/weekly_forecast.py:99-109 | appending rows to an existing log gives the log of all rows, and never changes what was there |
| WeeklyForecast.LogReadsBack | SLICEop/auto/weekly_forecast.py:99-109 | after appending, the log reads back as the old rows (or none, for a new log) followed by the new ones |
| WeeklyForecast.AppendedJoin | SLICEop/auto/weekly_forecast.py:99-163 | appending the mean row and then the members is the same as appending them all at once |
| WeeklyForecast.ForecastLog.constructor | SLICEop/auto/weekly_forecast.py:99 | a log file with its name, whether it exists and its content |
| WeeklyForecast.ForecastLog.Write | SLICEop/auto/weekly_forecast.py:99-109 | writing a row creates the log with its header when it is missing, or appends to it, and the log then exists |
| WeeklyForecast.Input | SLICEop/auto/weekly_forecast.py:116-125 | a scalar input is the same for every member, a member array gives member n's value, and a missing value fails |
| WeeklyForecast.Inputs | SLICEop/auto/weekly_forecast.py:116-131 | the inputs exist exactly when every key is present and readable; they are read in order |
| WeeklyForecast.MeanKeys | SLICEop/auto/weekly_forecast.py:51-53 | definition, elementwise: the ensemble mean forecast reads the three mean keys in order |
| WeeklyForecast.MemberKeys | SLICEop/auto/weekly_forecast.py:121-125 | definition, elementwise: the member forecast reads one key per predictor |
| WeeklyForecast.MemberInputsFallBack | SLICEop/auto/weekly_forecast.py:121-125 | a member reads a predictor's member value when present and falls back on its mean otherwise |
| WeeklyForecast.ScalarInputShared | SLICEop/auto/weekly_forecast.py:119-123 | a predictor with one value (ERA5) gives every member the same input |
| WeeklyForecast.Row | SLICEop/auto/weekly_forecast.py:127-131 | a row exists exactly when its inputs do, and carries the issue stamp, the member number and the rounded prediction |
| WeeklyForecast.MemberRows | SLICEop/auto/weekly_forecast.py:113-131 | without member data there are no member rows; otherwise row n is member n + 1's prediction |
| WeeklyForecast.OkPrefix | SLICEop/auto/weekly_forecast.py:115-163 | the rows written are the leading successful ones, up to the first failure |
| WeeklyForecast.FirstError | SLICEop/auto/weekly_forecast.py:115-167 | there is no error exactly when every row succeeds, and otherwise it is the first failure |
| WeeklyForecast.OkPrefixAt | SLICEop/auto/weekly_forecast.py:115-163 | any successful prefix ending at a failure or at the end is the written prefix |
| WeeklyForecast.RunRowsInOrder | SLICEop/auto/weekly_forecast.py:99-163 | the rows of one run carry the same stamp and the numbers 0, 1, 2, and so on |
| WeeklyForecast.DigitsPlain | SLICEop/auto/weekly_forecast.py:101 | a digit string contains no comma or newline |
| WeeklyForecast.SeasonTextPlain | SLICEop/auto/weekly_forecast.py:34-37 | the season year text contains no comma or newline |
| WeeklyForecast.Stamp | SLICEop/auto/weekly_forecast.py:30-37 | the issue stamp, season year then month and day, contains no comma or newline |
| WeeklyForecast.WriteMembers | SLICEop/auto/weekly_forecast.py:113-167 | on an existing log the member loop appends the leading successful rows and reports the first failure; on a missing log it writes nothing and stops |
| WeeklyForecast.WriteRun | SLICEop/auto/weekly_forecast.py:99-167 | one run appends the mean row and the leading successful member rows, and reports the first failing member |
| WeeklyForecast.RunForecast | SLICEop/auto/weekly_forecast.py:34-172 | May and June and a failing mean forecast change nothing; otherwise the log gets the mean row and the successful member rows, old content is kept, and the result is the date the script prints for the mean forecast, computed as written |
| Echart.DropLast | SLICEop/auto/daily_prepare_data_for_echart.py:36-38 | the climatology drops day of year 366 and keeps the rest in order |
| Echart.Rotated | SLICEop/auto/daily_prepare_data_for_echart.py:56-67 | the rotated climatology keeps its length, starts with entry 182 and wraps around to entry 0 |
| Echart.ClimatologyAxis | SLICEop/auto/daily_prepare_data_for_echart.py:36-67 | from 366 day-of-year groups the chart gets 365 values, days 183 to 365 first and then days 1 to 182 |
| Echart.Range | SLICEop/auto/daily_prepare_data_for_echart.py:149 | definition, elementwise: the band height is maximum minus minimum, day by day |
| Echart.Slice | SLICEop/auto/daily_prepare_data_for_echart.py:105 | a Python slice: the substring when in range, never longer than asked |
| Echart.DayOfYearDate | SLICEop/auto/daily_prepare_data_for_echart.py:117 | `%Y %j` parsing accepts years 1000 to 9999 and days 1 to 366, giving that day of the year (day 366 of a common year rolls into January 1) |
| Echart.ParseIsoDate | SLICEop/auto/daily_prepare_data_for_echart.py:100 | a parsed `YYYY-MM-DD` text is a valid date whose month-day text is the text's tail |
| Echart.ForecastYearIsSeason | SLICEop/auto/daily_prepare_data_for_echart.py:86-89 | outside May and June the year in the log file names is the season year the forecast jobs write under |
| Echart.LatestIssued | SLICEop/auto/daily_prepare_data_for_echart.py:96-97 | the latest issue date is the issue date of the log's last row, and a log without rows has none |
| Echart.MeanFuds | SLICEop/auto/daily_prepare_data_for_echart.py:101-104 | the mean-forecast values selected for one issue date: never more values than rows |
| Echart.MeanFudsAppend | SLICEop/auto/daily_prepare_data_for_echart.py:101-104 | selecting from two logs joined is joining the selections |
| Echart.MeanFudsOfRun | SLICEop/auto/daily_prepare_data_for_echart.py:101-104 | in the rows one forecast run writes, the only mean-forecast value is its first row's |
| Echart.LatestIsLastRun | SLICEop/auto/daily_prepare_data_for_echart.py:96-104 | after a run is appended, the latest issue is that run's and its mean value is added to the selection |
| Echart.MeanFud | SLICEop/auto/daily_prepare_data_for_echart.py:101-104 | the mean-forecast value exists exactly when some row matches |
| Echart.Choose | SLICEop/auto/daily_prepare_data_for_echart.py:100-113 | the weekly forecast is used when its date is not before the monthly one's, otherwise the monthly forecast, each with its mean value |
| Echart.Latest | SLICEop/auto/daily_prepare_data_for_echart.py:96-113 | as written, the latest forecast is always the weekly log's last issue |
| Echart.WeeklyAlwaysChosen | SLICEop/auto/daily_prepare_data_for_echart.py:97 | because both dates are read from the weekly log, the monthly log never affects the result |
| Echart.LatestDateAsWritten | SLICEop/auto/daily_prepare_data_for_echart.py:115-124 | as written, a FUD below 182 is read as a day of the next year and any other as a day of the season year; the conversion succeeds exactly when that year has four digits and the truncated FUD is a day 1 to 366, so a FUD from day 367 on always fails |
| Echart.LatestDateRejectsJanuary | SLICEop/auto/daily_prepare_data_for_echart.py:115-124 | a forecast day of year 370 makes `%j` parsing fail as written, while the intended date is January 5 of the next year |
| Echart.LatestDate | SLICEop/auto/daily_prepare_data_for_echart.py:115-124 | the intended conversion succeeds for days 1 to 730, and days past 365 fall in the next year |
| Echart.LatestDateAgrees | SLICEop/auto/daily_prepare_data_for_echart.py:115-124 | up to day 365 the intended conversion is the code as written |
| Echart.LatestDateIsForecastDate | SLICEop/auto/daily_prepare_data_for_echart.py:115-124 | for whole days from 182 on (past 365 in a leap year) the dashboard shows the date the forecast job computed |
| Echart.WindowStart | SLICEop/auto/daily_prepare_data_for_echart.py:170-183 | every season starts on July 1 (day 183 in leap years, 182 otherwise) |
| Echart.WindowEnd | SLICEop/auto/daily_prepare_data_for_echart.py:173-181 | a season ends on day 181 of the next year: June 30, or June 29 in a leap year |
| Echart.WindowSpans365 | SLICEop/auto/daily_prepare_data_for_echart.py:170-183 | every season spans 365 days |
| Echart.WindowDays | SLICEop/auto/daily_prepare_data_for_echart.py:170-183 | the season's 365 consecutive days from its start to its end |
| Echart.EverySeasonCurrentFromJuly | SLICEop/auto/daily_prepare_data_for_echart.py:186 | as written, from July on every season passes the current-season test |
| Echart.IsCurrentAsWritten | SLICEop/auto/daily_prepare_data_for_echart.py:186 | as written, the current-season test holds from July on for every season and from January to June only for the season that began last year |
| Echart.IsCurrent | SLICEop/auto/daily_prepare_data_for_echart.py:186 | the intended test holds for exactly one season: this year's from July on, last year's before July |
| Echart.CurrentSeasonUnique | SLICEop/auto/daily_prepare_data_for_echart.py:186 | the intended test picks exactly one season, the one containing today, and agrees with the code from January to June |
| Echart.FudDate | SLICEop/auto/daily_prepare_data_for_echart.py:115-124 | the script's reading converts the latest FUD as written, the intended reading with days past 365 in the next year |
| Echart.InWindow | SLICEop/auto/daily_prepare_data_for_echart.py:188 | the recent samples kept come from the input and lie within the season window |
| Echart.NanMean | SLICEop/auto/daily_prepare_data_for_echart.py:189 | the mean offset exists exactly when some offset is present |
| Echart.Present | SLICEop/auto/daily_prepare_data_for_echart.py:189 | the present values are empty exactly when every value is missing |
| Echart.MinusOffset | SLICEop/auto/daily_prepare_data_for_echart.py:188-189 | definition, elementwise: each recent value minus the mean winter offset |
| Echart.Clamped | SLICEop/auto/daily_prepare_data_for_echart.py:191 | negative values become 0, everything else is unchanged |
| Echart.ClampedNonNegative | SLICEop/auto/daily_prepare_data_for_echart.py:191 | after clamping nothing is negative, and clamping again changes nothing |
| Echart.ClampNegatives | SLICEop/auto/daily_prepare_data_for_echart.py:191 | the in-place clamp leaves the array equal to the clamped series |
| Echart.Padded | SLICEop/auto/daily_prepare_data_for_echart.py:193-196 | a short series is padded with missing values to 365 and keeps its values; a longer one is left as it is |
| Echart.PastSeries | SLICEop/auto/daily_prepare_data_for_echart.py:201-202 | when every window day is found, a past season has exactly one value per day of its window |
| Echart.Lookup | SLICEop/auto/daily_prepare_data_for_echart.py:201 | a day is found exactly when the preprocessed record has it |
| Echart.FrozenMarkers | SLICEop/auto/daily_prepare_data_for_echart.py:73-79 | the marker `True` reads as frozen and `False` as not frozen |
| Echart.AxisDay | SLICEop/auto/daily_prepare_data_for_echart.py:136-137 | each axis label is a five-character month-day |
| Echart.DateAxis | SLICEop/auto/daily_prepare_data_for_echart.py:128-137 | the axis has 365 labels |
| Echart.JulyFirst | SLICEop/auto/daily_prepare_data_for_echart.py:129 | day 182 of a common year is July 1 |
| Echart.JuneLast | SLICEop/auto/daily_prepare_data_for_echart.py:130 | day 181 of the following common year is June 30 |
| Echart.DateAxisEnds | SLICEop/auto/daily_prepare_data_for_echart.py:128-137 | the axis runs from 07-01 to 06-30 |
| Echart.Years | SLICEop/auto/daily_prepare_data_for_echart.py:139-140 | one label `y/y+1` per year from 1992 up to, not including, this year |
| Echart.LastSeasonUnlabelled | SLICEop/auto/daily_prepare_data_for_echart.py:139-166 | from July on, the season list has one more entry than the label list, so the current season has no label |
| Echart.ShiftedDay | SLICEop/auto/daily_prepare_data_for_echart.py:219-223 | a month-day read in 2001 becomes a day number from 182 to 546, days before July counted into the next year |
| Echart.ShiftedDayOfDate | SLICEop/auto/daily_prepare_data_for_echart.py:219-223 | every date other than February 29 reads, as its 2001 day of year, plus 365 before day 182 |
| Echart.ShiftedDays | SLICEop/auto/daily_prepare_data_for_echart.py:219-223 | all freeze-up dates read exactly when each does, in order |
| Echart.Reals | SLICEop/auto/daily_prepare_data_for_echart.py:225 | definition, elementwise: day numbers as reals, for the mean |
| Echart.ClimFud | SLICEop/auto/daily_prepare_data_for_echart.py:224-225 | the climatological freeze-up date is a five-character month-day |
| Echart.ClimFudOk | SLICEop/auto/daily_prepare_data_for_echart.py:219-225 | it exists exactly when every freeze-up date reads, there is at least one, and the truncated mean is a day `%j` accepts |
| Echart.CurrentSeries | SLICEop/auto/daily_prepare_data_for_echart.py:186-196 | the current season's series has 365 entries (when the window holds at most 365 samples), none negative |
| Echart.ComputeCurrentSeries | SLICEop/auto/daily_prepare_data_for_echart.py:186-196 | the imperative clamp and padding compute the reference current series |
| Echart.SeasonSeries | SLICEop/auto/daily_prepare_data_for_echart.py:186-202 | the current season's series is the clamped, padded window of the updated store (365 non-negative or missing values when that window is not longer); a past season's succeeds exactly when every window day is in the preprocessed record, and then holds that record's value for each day |
| Echart.SeasonFud | SLICEop/auto/daily_prepare_data_for_echart.py:203-211 | the current season's freeze-up is the frozen date's `MM-DD` when frozen (failing when the frozen-date file is missing), else the latest forecast's; a past season's exists exactly when the record has its index, empty for a NaT |
| Echart.SeasonOf | SLICEop/auto/daily_prepare_data_for_echart.py:166-213 | a season built carries its own label, and the current one builds exactly when the river is not frozen or the frozen date is known |
| Echart.SeasonOfShape | SLICEop/auto/daily_prepare_data_for_echart.py:166-213 | each season carries its label and 365 values; a past season shows its observed freeze-up, the current one the frozen date when frozen and the latest forecast otherwise |
| Echart.Seasons | SLICEop/auto/daily_prepare_data_for_echart.py:166-217 | all seasons are built exactly when each is, in order from the first year |
| Echart.SeasonSpecs | SLICEop/auto/daily_prepare_data_for_echart.py:166-217 | definition, elementwise: one season result per year, in order |
| Echart.BuildSeasons | SLICEop/auto/daily_prepare_data_for_echart.py:166-217 | the imperative season loop computes the reference season list |
| Echart.SeasonLoop | SLICEop/auto/daily_prepare_data_for_echart.py:166-217 | the season loop yields every season's result in order, or the first failure |
| Echart.ComputeSeason | SLICEop/auto/daily_prepare_data_for_echart.py:166-213 | the imperative body of one iteration computes the reference season |
| Echart.SeasonsShape | SLICEop/auto/daily_prepare_data_for_echart.py:166-217 | every season in the list has its label and 365 values |
| Echart.Fuds | SLICEop/auto/daily_prepare_data_for_echart.py:207-213 | definition, elementwise: the freeze-up date of every season, in order |
| Echart.LatestForecast | SLICEop/auto/daily_prepare_data_for_echart.py:83-124 | a latest forecast exists only when both logs read and the weekly one has rows, and its issue date is the first ten characters of the weekly log's last issue |
| Echart.Logs | SLICEop/auto/daily_prepare_data_for_echart.py:91-94 | both logs must exist and parse, and the weekly rows are those of the weekly log |
| Echart.LatestOf | SLICEop/auto/daily_prepare_data_for_echart.py:83-124 | the latest forecast shown is the chosen one's date, written `YYYY-MM-DD` |
| Echart.LatestOfRun | SLICEop/auto/daily_prepare_data_for_echart.py:96-113 | after a weekly run with a new issue date, the latest forecast is that run's mean prediction |
| Echart.LatestForecastOfRun | SLICEop/auto/daily_prepare_data_for_echart.py:83-124 | after such a run the dashboard shows that issue date and the run's mean prediction as a date |
| Echart.Build | SLICEop/auto/daily_prepare_data_for_echart.py:19-245 | a dashboard is built only when the frozen date is known for a frozen river and the latest forecast exists, and it reports the frozen flag read from the marker |
| Echart.Assemble | SLICEop/auto/daily_prepare_data_for_echart.py:166-233 | a dashboard holds exactly the seasons of the loop from 1992 to the loop end, the climatological date computed from their freeze-up dates, and the given latest forecast |
| Echart.AssembleOf | SLICEop/auto/daily_prepare_data_for_echart.py:218-233 | after the loop the dashboard holds the loop's seasons, the climatological date of their freeze-ups and the latest forecast, failing with the first of these steps that fails |
| Echart.Chart | SLICEop/auto/daily_prepare_data_for_echart.py:134-225 | the dashboard holds the seasons, the climatological date, the latest forecast, the frozen flag, 365 axis days and 365 climatology values |
| Echart.AssembleCurrentSeason | SLICEop/auto/daily_prepare_data_for_echart.py:166-213 | there is one season per year up to the loop end, and the last one shows the frozen date when frozen, the latest forecast otherwise |
| Echart.BuildLatest | SLICEop/auto/daily_prepare_data_for_echart.py:19-245 | a successful job shows the latest forecast, 365 axis days and 365 climatology values |
| Echart.LatestMonthDay | SLICEop/auto/daily_prepare_data_for_echart.py:209 | characters 5 to 10 of a written date are its month-day |

| Echart.SeasonsAgreeBeforeJuly | SLICEop/auto/daily_prepare_data_for_echart.py:186 | from January to June the script's test and the intended one build the same seasons |
| Echart.LatestForecastAgrees | SLICEop/auto/daily_prepare_data_for_echart.py:115-124 | with a latest FUD of at most day 365 both readings show the same latest forecast |
| Echart.AssembleAgreesBeforeJuly | SLICEop/auto/daily_prepare_data_for_echart.py:166-233 | from January to June both readings assemble the same dashboard |
| Echart.BuildAgreesBeforeJuly | SLICEop/auto/daily_prepare_data_for_echart.py:19-245 | from January to June, with a latest FUD of at most 365, the script builds exactly what the corrected job builds |
| Echart.EverySeasonAsCurrentFromJuly | SLICEop/auto/daily_prepare_data_for_echart.py:186-211 | as written, from July on every season, past ones included, shows the updated store's window as its series and the frozen date or the latest forecast as its freeze-up date |
| Echart.SameFudFromJuly | SLICEop/auto/daily_prepare_data_for_echart.py:203-211 | hence from July on all seasons carry the same freeze-up date |
| Echart.BuildStopsPastDay366 | SLICEop/auto/daily_prepare_data_for_echart.py:115-124 | a latest FUD from day 367 to 730 stops the script with an error, while the corrected job shows a latest forecast for any four-digit season year |
| Downloads.Step | SLICEop/downloads/monthly_SEAS51_ERA5.py:25-74 | only a read of a missing `frozen` file fails, and a failed step changes nothing |
| Downloads.Run | SLICEop/downloads/monthly_SEAS51_ERA5.py:155-227 | a plan stops only on a missing `frozen` file, and a plan that never resets `frozen` cannot fail |
| Downloads.RunAppend | SLICEop/downloads/monthly_SEAS51_ERA5.py:155-227 | running two plans one after the other is running them joined, stopping at the first error |
| Downloads.Fetches | SLICEop/downloads/monthly_SEAS51_ERA5.py:157-158 | definition, elementwise: one download per file, in the order given |
| Downloads.FetchesFiles | SLICEop/downloads/monthly_SEAS51_ERA5.py:156-202 | the downloads never fail the job, add exactly the files the data store delivers, leave the text files alone and only add requests |
| Downloads.FetchesRequests | SLICEop/downloads/monthly_SEAS51_ERA5.py:25-33 | a request is made for exactly the listed files not already present |
| Downloads.FetchStepRequests | SLICEop/downloads/monthly_SEAS51_ERA5.py:25-33 | one more fetch requests its file only when it is absent, keeping the request log of the fetches before it |
| Downloads.Marks | SLICEop/downloads/monthly_SEAS51_ERA5.py:221-227 | definition, elementwise: one marker write per name, in order |
| Downloads.Marked | SLICEop/downloads/monthly_SEAS51_ERA5.py:221-227 | every marker reads `True` and every other text file is unchanged |
| Downloads.RunMarks | SLICEop/downloads/monthly_SEAS51_ERA5.py:221-227 | writing the markers never fails and changes only the marker files |
| Downloads.ResetThenMarks | SLICEop/downloads/monthly_SEAS51_ERA5.py:203-227 | the reset fails, changing nothing, exactly when `frozen` is missing; otherwise it writes `False` (always, or only over `True`) and then the markers |
| Downloads.FetchesThenMarks | SLICEop/downloads/monthly_SEAS51_ERA5.py:155-227 | downloads followed by markers never fail: exactly the delivered files are added, only missing files are requested, and the markers read `True` |
| Downloads.MonthlyActions | SLICEop/downloads/monthly_SEAS51_ERA5.py:153-227 | the monthly plan resets `frozen` (only over `True`) exactly in May and June, never resets it unconditionally, always marks `updatem` and marks `updatey` exactly in January to April |
| Downloads.MonthlyDownloads | SLICEop/downloads/monthly_SEAS51_ERA5.py:156-202 | three files to fetch in every month except May and June, which fetch none |
| Downloads.MonthlyFlags | SLICEop/downloads/monthly_SEAS51_ERA5.py:153-227 | `updatem` is always written, `updatey` exactly in January to April |
| Downloads.PreproFirst | SLICEop/prepro/monthly_preprocess.py:46-57 | the file the monthly preprocessing looks for first: the ERA5 month once the predictor's month is over or in January to April, else the current SEAS5.1 forecast |
| Downloads.MonthlyDownloadsFeedPrepro | SLICEop/downloads/monthly_SEAS51_ERA5.py:156-202 | every file the monthly preprocessing looks for first is one the monthly download job requests |
| Downloads.MonthlyEffect | SLICEop/downloads/monthly_SEAS51_ERA5.py:155-227 | from July to April the monthly job never fails, adds exactly the delivered files, requests only the missing ones and writes its markers |
| Downloads.NoSeasFallback | SLICEop/downloads/monthly_SEAS51_ERA5.py:180-202 | in January to April only ERA5 months of the previous year are requested, so the SEAS5.1 fallbacks are never used |
| Downloads.MissingEra5Stays | SLICEop/downloads/monthly_SEAS51_ERA5.py:180-202 | an ERA5 month the data store cannot deliver stays missing, and no SEAS5.1 file takes its place |
| Downloads.AbsentFilesAbort | SLICEop/prepro/monthly_preprocess.py:46-57 | with neither the ERA5 month nor the SEAS5.1 fallback on disk, the monthly preprocessing of that predictor aborts with "not found" |
| Downloads.EntryWithoutFiles | SLICEop/prepro/monthly_preprocess.py:56-142 | a predictor with neither its ERA5 nor its SEAS5.1 file makes the monthly preprocessing abort with "not found" |
| Downloads.MissingEra5Aborts | SLICEop/downloads/monthly_SEAS51_ERA5.py:180-202 | when the data store cannot deliver an ERA5 month in January to April, the preprocessing that follows aborts for that predictor |
| Downloads.MonthlyResetsFrozen | SLICEop/downloads/monthly_SEAS51_ERA5.py:203-223 | in May and June the job fetches nothing, turns `frozen` from `True` to `False` and writes `updatem`; a missing `frozen` stops it before any marker |
| Downloads.WeeklyFileActions | SLICEop/downloads/weekly_ERA5.py:211-299 | the weekly file plan holds at most two steps, resets `frozen` unconditionally exactly in February to August, never downloads a whole month or marks, and refreshes or removes only partial ERA5 files |
| Downloads.WeeklyActions | SLICEop/downloads/weekly_ERA5.py:211-299 | the weekly plan ends by marking `updatew`, resets `frozen` exactly in February to August and never downloads a whole month |
| Downloads.WeeklyTarget | SLICEop/downloads/weekly_ERA5.py:213-278 | the partial file of each month belongs to the season being forecast and to a predictor whose month has begun |
| Downloads.OneFileThenMarks | SLICEop/downloads/weekly_ERA5.py:34-82 | one refresh or removal then the markers: a refreshed file is present exactly when delivered, a removed one is gone |
| Downloads.TwoFilesThenMarks | SLICEop/downloads/weekly_ERA5.py:253-262 | a removal then a refresh: the removed file is gone and the refreshed one present exactly when delivered |
| Downloads.WeeklyPartialEffect | SLICEop/downloads/weekly_ERA5.py:211-278 | from September to January the weekly job never fails, requests at most its target file, and that file ends present exactly when refreshed and delivered |
| Downloads.WeeklyResetsFrozen | SLICEop/downloads/weekly_ERA5.py:279-299 | from February to August the job writes `False` into `frozen` whatever it held and writes `updatew`, failing only when `frozen` is missing |
| Downloads.Workspace.constructor | SLICEop/downloads/monthly_SEAS51_ERA5.py:147-153 | the workspace starts in the given state |
| Downloads.Workspace.Perform | SLICEop/downloads/monthly_SEAS51_ERA5.py:25-74 | the in-place update of the files, texts and requests is the step's outcome |
| Downloads.Workspace.RunPlan | SLICEop/downloads/monthly_SEAS51_ERA5.py:155-227 | running a plan in place leaves the workspace in the plan's outcome |
| Downloads.Workspace.MonthlyJob | SLICEop/downloads/monthly_SEAS51_ERA5.py:155-227 | the monthly job in place ends in the outcome of the monthly plan |
| Downloads.Workspace.WeeklyJob | SLICEop/downloads/weekly_ERA5.py:211-299 | the weekly job in place ends in the outcome of the weekly plan |

## Left out

- Decoding GRIB, netCDF and CSV is left out. The model works on decoded values: samples, hourly ERA5 values, SEAS5.1 member grids and log rows.
- Library statistics are inputs: the derivatives, the daily means, the day-of-year climatologies, `interpolate_na` and the `QS-DEC` means. They come in through `Ingestion.Library`, `YearlyQc.QcLibrary` and `InitialIngestion.InitLibrary`. Only how the scripts combine their results is modelled.
- The scikit-learn regression is the `predict` input of the forecast job. Fitting it is not modelled.
- The ERA5 yearly aggregation of the yearly predictors (`prepro/yearly_preprocess.py:150-194`) is an input series.
- File modification and creation times (`downloads/initial_Twater.py:111-121`) are an input: the minute grid of `InitialIngestion.Sources`.
- The clock comes in as year, month and day parameters. The `TEST` environment branches and host checks are left out, including the test branch of `downloads/weekly_ERA5.py:126-210`.
- `print`, log output and the wording of error messages are left out. Error texts are placeholders compared only for being errors.
- The dashboard's colour map (`auto/daily_prepare_data_for_echart.py:164` and `215-217`) and its standard-deviation climatology (`40-42`, `59-61`) are left out.
- Writing the dashboard JSON and `frozen.js` (`auto/daily_prepare_data_for_echart.py:228-245`) is left out. The model ends at the `Dashboard` value.
- Real arithmetic is exact in the model, so floating-point rounding is not modelled. NaN is `None` wherever the scripts test for it. NaN inside library results is not modelled.
- The climate data store client, its retries and the network are the `available` oracle of `Downloads`.
- Years outside 1000 to 9999 only matter where `strptime` rejects them (`Echart.DayOfYearDate`). Elsewhere dates are civil dates of any year.
- Concurrency between the cron jobs is left out. Each job is a function or method from the files it reads to the files it writes.
- Path strings are built as the scripts build them. For years 0 to 9999, `Predictors.Era5NameDistinct` and `Predictors.Seas51NameDistinct` show that distinct files get distinct names. Years are written with four digits, while the scripts write the January-to-April season year with `str`; the two differ only below year 1000.
- Ingestion.ParseCell: an infinite reading is treated as a read failure, since a sample holds a finite temperature. `float`'s underscores between digits and its non-ASCII digits are not modelled. When a column is all numeric, pandas parses it itself; this is modelled as `float` on each cell.
- Ingestion.FreezeStep: the `auto/frozen` file is taken to exist. When it is missing and the newest daily mean is below 0.75, `open` raises after the store and `updated` have been written (daily_Twater.py:131-133); the model reports a completed update there, with the flags unchanged.
- YearlyQc.Processed: `interpolate_na` is a library input, so nothing is stated about the result of the interpolation. Properties are stated on `YearlyQc.Screened`, and `YearlyQc.Clean` computes `YearlyQc.Processed` in place.
- YearlyQc.FreezeUps: a bin with no days gives no freeze-up and the job fails, where xarray would restore NaT. This cannot happen on the daily index the job reads, which has a value for every day between the first and the last winter.
- Text.ParseMonthDay: reads only the two-digit `MM-DD` form. `strptime` would also accept one-digit fields, which the scripts never write.
- Splice.DistinctDays: lists days in order of first appearance. `resample` sorts them; the two agree because the hours of a downloaded ERA5 file come in time order.
- Echart.MeanFuds: the contract bounds the selection only. What it selects is stated by `Echart.MeanFudsAppend` and `Echart.MeanFudsOfRun` over the rows a forecast run writes.
- Echart.PastSeries: the contract states the length on success, not that a missing day is the only way to fail.
- Echart.ShiftedDay: the contract states the range of the result. The exact value is stated for valid dates by `Echart.ShiftedDayOfDate`, not for every text.
- Echart.AxisDay: the contract states the label's length. The first and last labels are stated by `Echart.DateAxisEnds` for common years.
- Echart.ClimFud: the contract states the result's length and when it exists (`Echart.ClimFudOk`), not which calendar day the mean falls on.

## Findings

| source | as written | input that shows it | evidently intended | confidence | as-written member | corrected member |
|---|---|---|---|---|---|---|
| SLICEop/prepro/weekly_preprocess.py:234-237 | for a predictor summed over its month, with a SEAS5.1 forecast issued the month before and several ERA5 days, the members' values before the block (one per member) are added to the ERA5 running totals (one per day) as two numpy vectors; the older copy does the same | two members and two ERA5 days: forecast steps 2024-11-30, 12-01 and 12-02, ERA5 values December 1 = 1.0 and December 2 = 2.0, member grid [[10,10,10],[20,20,20]]; member 0 gets 23 on December 2, where 13 is meant; when the numbers of members and of days differ, the addition raises and the job stops | every member, at every spliced step, gets its own value before the block plus the ERA5 total up to that step | not executed | Splice.SplicePlanAsWritten (Splice.BroadcastSumStops, Splice.BroadcastSumMixesMembers, WeeklyPrepro.WeeklyEntryStops) | Splice.SplicePlan (Splice.EarlierMonthSplice) |
| SLICEop/auto/weekly_forecast.py:72-92 | the day offset is `around(f - 1)` in a common year but `around(f)` in a leap year, so the prediction is shifted before it is rounded, and `around` rounds halves to even | the prediction 359.5: the log stores day 360, yet the date printed in a common year is day 359, and the leap-year date is not the same calendar day | every year counts as 365 days, so one rounded day number gives the same calendar day in every year | not executed | WeeklyForecast.ForecastDateAsWritten (WeeklyForecast.TieBreaksYearBlindness, WeeklyForecast.TieIn2023And2024) | WeeklyForecast.ForecastDate (WeeklyForecast.YearBlind, WeeklyForecast.AsWrittenAgrees) |
| SLICEop/auto/daily_prepare_data_for_echart.py:115-124 | a latest forecast day of year of 182 or more is parsed with `%j` in the season year, and `%j` refuses days past 366 | a forecast day of year of 370: parsing fails and the job stops | days past 365 fall in the next year, as the forecast job dates them (January 5 for 370) | not executed | Echart.LatestDateAsWritten (Echart.LatestDateRejectsJanuary, Echart.BuildStopsPastDay366) | Echart.LatestDate (Echart.LatestDateAgrees, Echart.LatestDateIsForecastDate) |
| SLICEop/auto/daily_prepare_data_for_echart.py:186 | the current-season test is true for every season once `tyear` has moved past this year | any run from July to December: every past season takes its series from the recent samples and its freeze-up date from the latest forecast | only the season that contains today is the current season | not executed | Echart.IsCurrentAsWritten (Echart.EverySeasonCurrentFromJuly, Echart.EverySeasonAsCurrentFromJuly, Echart.SameFudFromJuly) | Echart.IsCurrent (Echart.CurrentSeasonUnique, Echart.SeasonsAgreeBeforeJuly) |
