# Stock data collector: a verified model of its decision logic

This project models the batch programs that fill and analyse the stock
database of a Tokyo-market chart application, and proves properties of them.
It covers four programs:

- The **business-day calendar** (`Calendar`, `business_day_utils.dfy`):
  - A day is a business day when it is a weekday and not a national holiday.
  - The holiday set of one year is loaded from the Cabinet Office CSV.
  - The calendar finds the latest business day on or before a date, and lists the business days of an interval.
- The **incremental stock collector** (`Collector`, `incremental_stock_collector.dfy`):
  - For every symbol of the master list it compares the stored date range with the target business day.
  - It classifies the symbol as new, update or skip.
  - It fetches the missing days from the market-data source, with bounded retries.
  - It upserts the rows into the bar table in batches, counting every outcome.
- The **hammer-after-decline signal detector** (`Hammer`, `hammer_signal_detector.dfy`):
  - For each symbol it looks at the latest business day and the business day before it.
  - It reads the last 20 stored bars up to that day.
  - It records a signal when the last bar is a hammer preceded by at least four consecutive falling closes.
  - The signal row is upserted, and a duplicate refreshes only the measured columns.
- The **symbol-master importer** (`Importer`, `stock_master_importer.dfy`):
  - It keeps the Prime-market rows of the exchange's listing sheet.
  - It takes code, name and sector from the first usable column of each kind, and normalises the code (".0" removed, zero-padded to four characters, ticker `code.T`).
  - It writes the rows into the master table under the skip, update or replace policy, counting the saved, invalid and already-existing rows.

`Store` (`store.dfy`) holds the three tables as maps from their unique keys to
their rows: `stocks` keyed by (symbol, date), `signal_detections` keyed by
(symbol, signal date, signal type), and `stock_master` keyed by code.
`Database` is a class whose three map fields the programs update in place.
`Util` (`util.dfy`) holds `Option` and the minimum and maximum of a finite set
of day numbers (SQL's `MIN`/`MAX`).

Dates are day numbers: day 0 is 1970-01-01, a Thursday. The weekday is
`(d + 3) % 7`, with Monday = 0 as in Python. 2025-01-06 is day 20094.

Everything outside the program is a parameter. Each of these is a value or a function given by the caller:

| Outside input | Parameter |
|---|---|
| The holiday CSV | `HolidayCsv`: download failed, unreadable, or the parsed first column |
| The market-data source | `Source`: a function of symbol, start, end and attempt number, giving rows or an exception |
| Database failures in the per-stock loop | `Storage`: whether the date-range read and the write of one symbol succeed |
| The ticker validator | `Validator` |
| The master-table lookup of the detector | `lookup` |
| The clock | `today`, `now` |
| CPython's iteration order of a two-element set of years | `endYearFirst` |

The methods of the classes:
- run the loops of the source, with the same branches, counters, breaks and error paths;
- are proved equal to specification functions such as `ProcessAll`, `RunDetection`, `ImportAll`, `ListedStocks` and `LatestBusinessDayIn`;
- have the programs' properties proved as lemmas about those functions.

Points where the code's own comments, or a first reading of it, suggest more than the code does:
- The detector's module docstring (`data_collector/hammer_signal_detector.py:5`) speaks of a decline of three or more business days. The code sets `min_decline_days` to 4 (line 37) and compares against it (line 211). The model follows the code: three drops before a hammer give no signal and four do (`Hammer.ThreeDropsNoSignal`, `Hammer.FourDropsSignal`).
- The hammer rule is only `close > low && close - low >= high - open` (lines 161-164). The lower and upper shadow ratios are computed and stored, but no threshold on them takes part (`Hammer.HammerWithoutShadowThreshold` exhibits a hammer whose lower shadow is a third of its range).
- The guard at line 314 accepts a window of exactly five bars, but such a window can never yield a signal: four drops need five bars before the hammer (`Hammer.FiveBarsNeverSignal`).
- Replace mode of the importer deletes and re-inserts only the code it writes (`data_collector/stock_master_importer.py:181-189`), not the whole table.
- The importer's command line defaults to skip mode (line 228), while `save_stock_master_to_db` defaults to update mode (line 115). The model takes the mode as a parameter.

## Model

| member | source | states |
|---|---|---|
| Calendar.Weekday | data_collector/business_day_utils.py:130-132 | the weekday of a day number is one of 0..6 (Monday = 0) |
| Calendar.WeekdayAnchor | data_collector/business_day_utils.py:130-132 | 1970-01-01 was a Thursday and 2025-01-06 a Monday; each day moves the weekday on by one |
| Calendar.WeekdayNext | data_collector/business_day_utils.py:130-132 | the day after a Sunday is a Monday; otherwise the weekday advances by one |
| Calendar.WeekdayAmongThree | data_collector/business_day_utils.py:130-133 | of any three consecutive days at least one is a weekday |
| Calendar.BusinessDayAmongThree | data_collector/business_day_utils.py:130-139 | with no holiday among three consecutive days, one of them is a business day |
| Calendar.BusinessDayBefore | data_collector/hammer_signal_detector.py:60-62 | below every day lies a business day, because the holiday set is finite (so the backward search of get_target_dates ends) |
| Calendar.PrevBusinessDayWitness | data_collector/business_day_utils.py:130-139 | below every day there is a latest business day: a business day with none between it and the day |
| Calendar.PrevBusinessDayExists | data_collector/business_day_utils.py:130-139 | the same, stated as existence |
| Calendar.PrevBusinessDay | data_collector/hammer_signal_detector.py:60-62 | the nearest business day strictly before a day: a business day, with no business day between |
| Calendar.PrevBusinessDayUnique | data_collector/hammer_signal_detector.py:60-62 | any business day with no business day between it and the day is that nearest one |
| Calendar.HolidaysOfYearMembers | data_collector/business_day_utils.py:95-108 | a date is collected exactly when the CSV lists it and it falls in the requested year |
| Calendar.LoadedHolidays | data_collector/business_day_utils.py:64-118 | a failed download raises (None); an unreadable file gives the empty set; otherwise exactly the listed dates of the requested year |
| Calendar.LatestWithinFacts | data_collector/business_day_utils.py:164-175 | the backward search returns the first business day within its budget, and none is skipped; when it finds none, no day in the budget is a business day |
| Calendar.LatestBusinessDayFacts | data_collector/business_day_utils.py:163-179 | the result is the first business day among target, target-1, ..., target-9; with no business day among them it is the target itself |
| Calendar.LatestBusinessDayIdempotent | data_collector/business_day_utils.py:167-173 | a business day is its own latest business day, so the search applied twice equals the search applied once |
| Calendar.LatestBusinessDayWithoutHolidays | data_collector/business_day_utils.py:164-175 | with no holiday in the last three days the result is at most two days back and is a business day |
| Calendar.BusinessDaysInFacts | data_collector/business_day_utils.py:203-211 | exactly the business days of [start, end], strictly ascending, empty when start > end |
| Calendar.YearOrder | data_collector/business_day_utils.py:198-199 | the years visited are exactly those of start and end |
| Calendar.BusinessDayCalculator.constructor | data_collector/business_day_utils.py:17-26 | no holidays loaded, the current year is the clock's |
| Calendar.BusinessDayCalculator.LoadHolidays | data_collector/business_day_utils.py:64-118 | the set is replaced (not merged) by the loaded year's dates, emptied when the file cannot be read, and left unchanged when the download raises |
| Calendar.BusinessDayCalculator.LatestBusinessDay | data_collector/business_day_utils.py:141-179 | reloads when the target's year differs or no holiday is loaded (a raised download ends it and changes nothing), then returns the latest business day of the loaded set |
| Calendar.BusinessDayCalculator.SearchLatest | data_collector/business_day_utils.py:164-179 | the backward loop computes the latest business day over the loaded set |
| Calendar.BusinessDayCalculator.BusinessDaysUntil | data_collector/business_day_utils.py:181-211 | the holiday set after reloading for both years in their iteration order, and the business days of [start, end] under it; None when a reload raised |
| Calendar.BusinessDayCalculator.ListBusinessDays | data_collector/business_day_utils.py:203-211 | the listing loop returns exactly the ascending business days of [start, end] |
| Calendar.CultureDayYear | data_collector/business_day_utils.py:104 | day 20395 (2025-11-03) lies in 2025 |
| Calendar.NewYearYear | data_collector/business_day_utils.py:104 | day 20454 (2026-01-01) lies in 2026 |
| Calendar.CrossYearHolidayIgnored | data_collector/business_day_utils.py:197-201 | as written: Culture Day 2025 is listed as a business day between 2025-11-03 and 2026-01-01, although the CSV lists it |
| Calendar.BusinessDaysAcrossYears | data_collector/business_day_utils.py:197-211 | corrected: the ascending weekdays of [start, end] outside the holidays of both years; None only when the download raised |
| Hammer.IsHammerCandle | data_collector/hammer_signal_detector.py:124-179 | a zero-range bar is never a hammer and has no metrics; otherwise a hammer exactly when close > low and close - low >= high - open |
| Hammer.ShadowsPartitionRange | data_collector/hammer_signal_detector.py:141-155 | lower shadow + upper shadow + body = range, so the three ratios add up to 100 |
| Hammer.HammerWithoutShadowThreshold | data_collector/hammer_signal_detector.py:158-164 | a bar with a lower shadow of a third of its range is a hammer: no ratio threshold takes part |
| Hammer.DeclineRunFacts | data_collector/hammer_signal_detector.py:197-209 | the counted run is made of strict drops, is at most the index, and stops at a tie or a rise |
| Hammer.DeclineRunAtLeast | data_collector/hammer_signal_detector.py:197-209 | n strict drops ending at a bar give a run of at least n |
| Hammer.DropsChain | data_collector/hammer_signal_detector.py:205-206 | consecutive drops make the closes strictly decreasing over the stretch |
| Hammer.DeclineQualifies | data_collector/hammer_signal_detector.py:197-211 | the run before the hammer reaches four exactly when the four steps before it are drops |
| Hammer.ConsecutiveDecline | data_collector/hammer_signal_detector.py:181-230 | no decline when the hammer index is below 4; a decline (or the division error) exactly when the four steps before the hammer are drops |
| Hammer.DeclineShape | data_collector/hammer_signal_detector.py:211-227 | a found decline has at least 4 days, starts at index h-1-days >= 0, is a maximal strictly falling run, and its percentage is (start - end) / start * 100 |
| Hammer.DeclinePctPositive | data_collector/hammer_signal_detector.py:218-220 | a decline from a positive close is a positive percentage |
| Hammer.CheckConsecutiveDecline | data_collector/hammer_signal_detector.py:181-230 | the walk back with its break computes the decline check |
| Hammer.LatestDates | data_collector/hammer_signal_detector.py:105-117 | at most n dates, strictly ascending, all taken from the set |
| Hammer.LatestDatesSize | data_collector/hammer_signal_detector.py:105-117 | as many dates as the limit and the set allow |
| Hammer.LatestDatesKeepNewest | data_collector/hammer_signal_detector.py:105-117 | every date left out is older than every date kept |
| Hammer.LatestDatesKeepAll | data_collector/hammer_signal_detector.py:105-117 | nothing is left out while fewer than n dates are kept |
| Hammer.EligibleDates | data_collector/hammer_signal_detector.py:108-109 | the stored dates of the symbol on or before the target |
| Hammer.WindowDates | data_collector/hammer_signal_detector.py:93-122 | at most 20 stored dates of the symbol on or before the target, ascending |
| Hammer.WindowDatesComplete | data_collector/hammer_signal_detector.py:105-117 | a stored date on or before the target is missing from the window only when the window is full and the date is older than all of it |
| Hammer.StockWindow | data_collector/hammer_signal_detector.py:93-122 | the window holds the stored bar of each window date, in order |
| Hammer.BarsAt | data_collector/hammer_signal_detector.py:113-117 | one bar per date, with that date and the stored values |
| Hammer.DecideDateFacts | data_collector/hammer_signal_detector.py:310-364 | a date is acted on exactly when the window has more than five bars, the last on the target date, a hammer after four drops; an exception exactly when the run starts at a zero close; a signal is for the last bar |
| Hammer.FiveBarsNeverSignal | data_collector/hammer_signal_detector.py:314-315 | a window of exactly five bars passes the guard but never signals |
| Hammer.CheckDate | data_collector/hammer_signal_detector.py:312-329 | the checks for one target date, in the source's order, compute the decision |
| Hammer.EvaluateDates | data_collector/hammer_signal_detector.py:310-364 | the loop over the target dates stops at the first signal or exception |
| Hammer.EvaluateSymbol | data_collector/hammer_signal_detector.py:310-364 | a hit is on one of the target dates |
| Hammer.FirstAction | data_collector/hammer_signal_detector.py:310-364 | a hit is on one of the dates tried |
| Hammer.FirstActionFacts | data_collector/hammer_signal_detector.py:310-364 | a hit is the first date whose decision is not "no signal", and the dates before it gave no signal |
| Hammer.HitIsFirstAction | data_collector/hammer_signal_detector.py:310-364 | for a symbol, the hit is the first target date (latest business day first) whose window gives a signal |
| Hammer.HitBarIsStored | data_collector/hammer_signal_detector.py:318-342 | the hammer of a hit is the stored bar of the signal date |
| Hammer.ColumnGroupsCoverRow | data_collector/hammer_signal_detector.py:257-277 | the kept and the refreshed column groups together make up the whole row |
| Hammer.UpsertSignal | data_collector/hammer_signal_detector.py:251-285 | a new key is inserted; on a duplicate only detection date, the three ratios, decline days and decline percentage change; other keys are untouched |
| Hammer.UpsertSignalIdempotent | data_collector/hammer_signal_detector.py:271-277 | saving a signal and saving it again later, with the later detection date, leaves the table as the later save alone |
| Hammer.RunDetectionFacts | data_collector/hammer_signal_detector.py:301-368 | a run adds exactly the keys of the signals found and keeps every other row; it counts at most one signal per symbol, of the detector's type, on a target date |
| Hammer.FoundKeysFacts | data_collector/hammer_signal_detector.py:301-368 | a key is found exactly when its symbol is run and its first decisive target date is a hit on that date; two found keys of one symbol are the same key |
| Hammer.RunDetectionRows | data_collector/hammer_signal_detector.py:251-368 | after a run, a newly found key holds the signal built from its hit; an existing one keeps its first snapshot and takes the new measures |
| Hammer.RerunAddsNoKeys | data_collector/hammer_signal_detector.py:271-277 | re-running over the same bars adds no new row |
| Hammer.Take | data_collector/hammer_signal_detector.py:294-295 | the first min(n, length) symbols |
| Hammer.HammerSignalDetector.constructor | data_collector/hammer_signal_detector.py:32-37 | the detector uses the given calendar |
| Hammer.HammerSignalDetector.TargetDates | data_collector/hammer_signal_detector.py:50-70 | the latest business day, then the nearest business day before it; None when the holiday reload raised; the calendar afterwards holds the holidays of today's year and that year when a reload was due and succeeded, and is unchanged otherwise |
| Hammer.HammerSignalDetector.SaveSignal | data_collector/hammer_signal_detector.py:251-285 | the signal table becomes the upsert of the signal |
| Hammer.HammerSignalDetector.DetectForSymbol | data_collector/hammer_signal_detector.py:309-364 | the first signal of the symbol, if any, is saved, and reported as found |
| Hammer.HammerSignalDetector.DetectAll | data_collector/hammer_signal_detector.py:298-368 | the symbol loop leaves the signal table and the count given by the run of all symbols in order |
| Hammer.HammerSignalDetector.DetectSignals | data_collector/hammer_signal_detector.py:287-374 | signals found for the (test-limited) symbols over the two target dates; None and no write when the dates cannot be computed; the calendar afterwards is reloaded for today's year when a reload was due and succeeded, and unchanged otherwise |
| Hammer.ThreeDropsNoSignal | data_collector/hammer_signal_detector.py:193-211 | three drops before a hammer give no signal |
| Hammer.FourDropsSignal | data_collector/hammer_signal_detector.py:211-227 | four drops before a hammer give a signal with 4 decline days and a 20 percent decline |
| Collector.StockDateRange | data_collector/incremental_stock_collector.py:79-108 | None exactly when the symbol has no rows; else stored minimum and maximum dates bounding all its rows |
| Collector.FetchPeriodFacts | data_collector/incremental_stock_collector.py:110-140 | new exactly when no row is stored (from 2025-01-06 to the target); skip exactly when a stored day is on or after the target; update from the day after the latest stored day, so no stored day is fetched again |
| Collector.FetchFromFacts | data_collector/incremental_stock_collector.py:146-170 | at most max_retries calls; one wait of (attempt+1)*2 s between consecutive calls; data only when non-empty, from the last call, after every earlier call raised |
| Collector.FetchStockDataFacts | data_collector/incremental_stock_collector.py:142-170 | the same from the first attempt; an early stop without data means the last call returned no rows |
| Collector.FetchEndsWithEmpty | data_collector/incremental_stock_collector.py:154-156 | stopping before the retries run out without data means the last call returned nothing |
| Collector.LastOn | data_collector/incremental_stock_collector.py:193-204 | the index of the last fetched bar of a date, or none with that date |
| Collector.UpsertBars | data_collector/incremental_stock_collector.py:193-204 | other symbols are untouched and no key disappears |
| Collector.UpsertBarsAt | data_collector/incremental_stock_collector.py:193-204 | a fetched date holds its last fetched bar; a date not fetched keeps its row or stays absent |
| Collector.UpsertBarsIdempotent | data_collector/incremental_stock_collector.py:193-204 | saving the same rows twice equals saving them once |
| Collector.ProcessSymbolFacts | data_collector/incremental_stock_collector.py:361-397 | each outcome exactly: a failed read, a skip by period, no rows fetched, a save, a failed write; only a save changes the table, only for that symbol, counting all its fetched rows, at least one |
| Collector.AdvanceCounters | data_collector/incremental_stock_collector.py:376-397 | one more symbol adds one processed; a stored new or known symbol adds one new or update success; a failed read or write adds one failure; only a stored symbol adds its records |
| Collector.ProcessAllStep | data_collector/incremental_stock_collector.py:358-397 | one more symbol continues from the state of the shorter prefix |
| Collector.ProcessAllCounts | data_collector/incremental_stock_collector.py:344-397 | every symbol is processed; new + update + failed <= processed; total new records >= new + update |
| Collector.ProcessAllTable | data_collector/incremental_stock_collector.py:361-397 | no stored row disappears; rows of symbols outside the list are untouched |
| Collector.PlanCountsSum | data_collector/incremental_stock_collector.py:302-329 | new + update + skip equals the number of symbols |
| Collector.ApplyTestLimit | data_collector/incremental_stock_collector.py:297-298 | a prefix of the list, of length min(k, n), or max(n + k, 0) for a negative k as Python slices |
| Collector.SymbolsOf | data_collector/incremental_stock_collector.py:358-359 | the symbols of the master rows, in order |
| Collector.IncrementalStockCollector.constructor | data_collector/incremental_stock_collector.py:31-46 | the settings are those given |
| Collector.IncrementalStockCollector.FetchStockData | data_collector/incremental_stock_collector.py:142-170 | the retry loop returns the data, waits and call count of the retry specification |
| Collector.IncrementalStockCollector.SaveStockData | data_collector/incremental_stock_collector.py:172-215 | empty data is a success without a write; otherwise the upsert of the rows commits (true) or the table is left as it was (false) |
| Collector.IncrementalStockCollector.ProcessStock | data_collector/incremental_stock_collector.py:361-397 | the per-stock body leaves the table and result of the one-symbol specification |
| Collector.IncrementalStockCollector.ProcessAndCount | data_collector/incremental_stock_collector.py:358-397 | one pass with its counters |
| Collector.IncrementalStockCollector.AnalysePlan | data_collector/incremental_stock_collector.py:302-329 | the analysis loop computes the plan counts and expected days |
| Collector.IncrementalStockCollector.ProcessBatch | data_collector/incremental_stock_collector.py:350-397 | one batch continues the counters over its slice of the list |
| Collector.IncrementalStockCollector.ProcessInBatches | data_collector/incremental_stock_collector.py:344-397 | batching changes nothing: the outcome equals processing the symbols one after the other |
| Collector.IncrementalStockCollector.CollectIncrementalData | data_collector/incremental_stock_collector.py:256-423 | the run aborts exactly when the holiday calendar it needs cannot be downloaded or a non-empty master meets a zero batch size; it stops at an empty master exactly when the calendar is there; otherwise the target is the latest business day, the plan and the run are over the test-limited list and the table is the run's; the calendar afterwards is reloaded for the requested day's year when a reload was due and succeeded, and unchanged otherwise |
| Importer.ContainsAt | data_collector/stock_master_importer.py:41 | a substring at some position is contained |
| Importer.RemoveDotZero | data_collector/stock_master_importer.py:65 | removing ".0" never lengthens the string |
| Importer.RemoveDotZeroNoDot | data_collector/stock_master_importer.py:65 | a string without '.' is unchanged |
| Importer.RemoveDotZeroAppend | data_collector/stock_master_importer.py:65 | removal distributes over a concatenation whose seam is not a ".0" |
| Importer.FloatCodeLosesSuffix | data_collector/stock_master_importer.py:65 | a code read as a float, "7203.0", loses exactly its ".0" |
| Importer.Zeros | data_collector/stock_master_importer.py:65 | n zeros |
| Importer.ZFill | data_collector/stock_master_importer.py:65 | the padded length is max(length, width) |
| Importer.ZFillFacts | data_collector/stock_master_importer.py:65 | an unsigned string is kept at the end behind added zeros; padding twice equals padding once |
| Importer.NormalizeCode | data_collector/stock_master_importer.py:65 | a normalised code has at least four characters |
| Importer.SymbolOf | data_collector/stock_master_importer.py:143 | the ticker is the code followed by ".T" |
| Importer.NormalizeFloatCode | data_collector/stock_master_importer.py:65 | a code read as a float and as text normalise alike; a digit code of four or more is kept |
| Importer.FirstValue | data_collector/stock_master_importer.py:62-80 | none exactly when no listed column is usable; else the value of the first usable column |
| Importer.MarketColumns | data_collector/stock_master_importer.py:41 | exactly the columns naming the market; the first of them is the first market column of the sheet |
| Importer.PrimeOnly | data_collector/stock_master_importer.py:48 | exactly the rows whose market cell mentions the Prime market, no more of them than the sheet has |
| Importer.PrimeOnlyCounts | data_collector/stock_master_importer.py:48 | each Prime row is kept as many times as it occurs in the sheet; any other row is never kept |
| Importer.PrimeOnlyAppend | data_collector/stock_master_importer.py:48 | the filter keeps sheet order: one more row at the end adds at most that row, at the end |
| Importer.PrimeRows | data_collector/stock_master_importer.py:41-56 | with a market column, the rows are the Prime filter (in sheet order, with multiplicity) over the first market column, when that keeps any row; all rows when there is no market column or no row matches |
| Importer.ExtractRow | data_collector/stock_master_importer.py:60-87 | a stock exactly when a code and a non-empty name are found; the code normalised, a missing sector "" |
| Importer.ExtractAll | data_collector/stock_master_importer.py:59-88 | no more stocks than rows |
| Importer.ExtractAllStep | data_collector/stock_master_importer.py:60-87 | one more row appends its stock, if any |
| Importer.ExtractAllFacts | data_collector/stock_master_importer.py:59-88 | every stock comes from a kept row, with a code of four or more characters and a name; every extractable row gives its stock |
| Importer.ImportAllStep | data_collector/stock_master_importer.py:141-205 | one more input row continues from the table and counts of the shorter prefix, adding one to the count of its outcome |
| Importer.ImportRowFacts | data_collector/stock_master_importer.py:141-205 | an existing code is reported exactly in skip mode; otherwise the row is invalid exactly when its ticker is rejected and saved exactly when it validates; a saved row is the new master row, or in update mode over an existing code that row with the old symbol; only a saved row changes the table, only at its code |
| Importer.SkipModeInsertsNew | data_collector/stock_master_importer.py:141-180 | in skip mode a validated code absent from the table is inserted from its first input row, and later rows of that code leave it |
| Importer.ImportCounts | data_collector/stock_master_importer.py:201-212 | success + invalid + existing equals the number of rows; only skip mode counts existing codes |
| Importer.ImportTouchesOnlyInputCodes | data_collector/stock_master_importer.py:163-189 | no mode removes a code; only input codes are added; a code absent from the input keeps its row |
| Importer.ImportSkipsInvalid | data_collector/stock_master_importer.py:158-205 | a code whose ticker is rejected is never written |
| Importer.SkipModeKeepsExisting | data_collector/stock_master_importer.py:148-156 | skip mode never alters a row that existed before |
| Importer.ImportWritesLastRow | data_collector/stock_master_importer.py:163-198 | in update and replace modes a validated code holds the name and sector of its last input row and the validator's English name and industry |
| Importer.SymbolKeptForCode | data_collector/stock_master_importer.py:163-174 | in update mode, a code new to the table gets its own ticker |
| Importer.UpdateKeepsSymbol | data_collector/stock_master_importer.py:163-174 | in update mode a code already in the table keeps its symbol |
| Importer.FirstPresent | data_collector/stock_master_importer.py:63-66 | the column search with its break finds the first usable column |
| Importer.ExtractOne | data_collector/stock_master_importer.py:60-87 | the loop body extracts the row's stock |
| Importer.ExtractListedStocks | data_collector/stock_master_importer.py:37-91 | filter then extraction, row by row, give the listing |
| Importer.WriteRow | data_collector/stock_master_importer.py:141-205 | one row written under the mode, as the row policy says |
| Importer.SaveStockMaster | data_collector/stock_master_importer.py:115-218 | the table and the three counts of the whole import are those of `ImportAll`, the fold of the per-row rule (`ImportRowFacts`, `ImportCounts`, `SkipModeInsertsNew`, `ImportWritesLastRow`, `UpdateKeepsSymbol`) |
| Store.AtDate | data_collector/hammer_signal_detector.py:105-113 | a stored row read back as the bar of that date |
| Store.SymbolDates | data_collector/incremental_stock_collector.py:90-96 | exactly the stored dates of the symbol |

## Left out

- MySQL access is not modelled: connections, SQL text, transactions and cursors. The tables are maps, and queries are functions over them.
- `get_data_statistics` only logs counts, so it is not modelled.
- Hammer.RunDetection: every save of one run is taken at a single instant `now`, while `save_signal` reads NOW() on each INSERT and on each ON DUPLICATE KEY UPDATE (`data_collector/hammer_signal_detector.py:265`, `:272`). So in the source, rows written by one run may differ in detection_date, and the model does not capture this.
- `get_all_symbols`, `get_all_stocks_from_master` and `get_stock_info` are not modelled. Their results are parameters: an ordered symbol list, an ordered master list and `lookup`.
- yfinance (`Ticker.history`, `Ticker.info`) is an oracle. The model does not capture that `history`'s end date is exclusive, since the source decides which rows come back.
- The holiday CSV download, the existing-file shortcut, the encoding fallback and date parsing are outside the model. A CSV is given already parsed, or as a failed download or an unreadable file.
- Reading the Excel sheet and its fallback are outside the model; the sheet is given as columns and rows of text cells. Cells are strings, so `str()` of a numeric cell must be given as its text (for example "7203.0").
- `time.sleep`, logging, progress percentages and the estimated time are left out. The waits of the retry loop are kept as a returned list.
- `round(..., 2)` on the ratios and the decline percentage is not modelled. The reals are unrounded.
- `datetime` parsing and formatting are replaced by day numbers.
- Collector.IncrementalStockCollector.constructor: `max_retries` is a natural number. A negative value behaves like 0 in the source (no attempt), which the model does not represent.
- Collector.ProcessSymbolFacts: a database connection failure inside `save_stock_data` raises to the per-stock handler. It is modelled as a failed write, which has the same effect: one more failure and an unchanged table.
- Collector.IncrementalStockCollector.CollectIncrementalData: a read failure during the analysis loop is not modelled. It would end the whole run. Read failures are modelled only in the processing loop.
- Hammer.HammerSignalDetector.DetectSignals: an exception other than the zero start price of a decline is not modelled. For example, a database failure while reading a window or saving a signal would end that symbol.
- Importer.SaveStockMaster: a database exception is not modelled. It would abandon the loop before the commit, so nothing would be written.
- `validate_symbol_with_yfinance` is the `Validator` parameter. Its "more than 10 info fields" rule belongs to yfinance's answer.
- The command lines (`main`), the REST back end, the polling collector and the yfinance smoke script are not part of this model.

## Findings

| source | as written | input that shows it | evidently intended | confidence | as-written member | corrected member |
|---|---|---|---|---|---|---|
| data_collector/business_day_utils.py:197-201 | `get_business_days_until` loads the holidays of both years of a range crossing a year boundary. Each load replaces the set, so only the year loaded last is in effect. | Range 2025-11-03 to 2026-01-01, with 2025 visited first and a CSV listing both holidays: 2025-11-03 (Culture Day) is listed as a business day. | The holidays of both years are excluded. | not executed | Calendar.CrossYearHolidayIgnored | Calendar.BusinessDaysAcrossYears |
