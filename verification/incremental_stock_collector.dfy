/**
 * The incremental collector: for every symbol of the master list it compares
 * the stored date range with the target business day, fetches only the
 * missing days from the market-data source (with bounded retries), and
 * upserts them into the bar table, counting the outcome per symbol.
 */
module Collector {
  import opened Util
  import opened Store
  import opened Calendar

  /** 2025-01-06, the first trading day of 2025: where a new symbol's history starts. */
  const BaseStartDate := 20094

  // ---------------------------------------------------------------------------
  // Stored range and fetch period

  datatype DateRange = DateRange(first: int, last: int)

  /** get_stock_date_range: MIN(date) and MAX(date) of the symbol's rows, None when it has none. */
  function StockDateRange(t: StockTable, symbol: string): (r: Option<DateRange>)
    ensures r.None? <==> SymbolDates(t, symbol) == {}
    ensures r.Some? ==>
      && BarKey(symbol, r.value.first) in t && BarKey(symbol, r.value.last) in t
      && forall d :: BarKey(symbol, d) in t ==> r.value.first <= d <= r.value.last
  {
    var ds := SymbolDates(t, symbol);
    if ds == {} then None else Some(DateRange(MinOf(ds), MaxOf(ds)))
  }

  datatype FetchStatus = New | Update | Skip

  datatype FetchPeriod = FetchPeriod(start: int, end: int, status: FetchStatus)

  /** calculate_fetch_period */
  function CalculateFetchPeriod(t: StockTable, symbol: string, target: int): FetchPeriod {
    match StockDateRange(t, symbol)
    case None => FetchPeriod(BaseStartDate, target, New)
    case Some(range) =>
      if range.last >= target then FetchPeriod(range.last, target, Skip)
      else FetchPeriod(range.last + 1, target, Update)
  }

  /** A symbol without rows is new and is fetched from the base start date; it is
      skipped exactly when some stored day is on or after the target; otherwise
      the fetch starts the day after its latest stored day, so no stored day is
      fetched again. */
  lemma FetchPeriodFacts(t: StockTable, symbol: string, target: int)
    ensures var p := CalculateFetchPeriod(t, symbol, target);
      && (p.status == New <==> forall d :: BarKey(symbol, d) !in t)
      && (p.status == New ==> p.start == BaseStartDate && p.end == target)
      && (p.status == Skip <==> exists d :: BarKey(symbol, d) in t && d >= target)
      && (p.status == Skip ==> BarKey(symbol, p.start) in t && p.end == target)
      && (p.status == Update ==>
            && p.end == target && p.start <= target
            && BarKey(symbol, p.start - 1) in t
            && forall d :: BarKey(symbol, d) in t ==> d < p.start)
  {
    var r := StockDateRange(t, symbol);
    if r.None? {
      assert forall d :: BarKey(symbol, d) !in t by {
        forall d ensures BarKey(symbol, d) !in t {
          assert d !in SymbolDates(t, symbol);
        }
      }
    } else {
      assert BarKey(symbol, r.value.last) in t;
    }
  }

  // ---------------------------------------------------------------------------
  // Fetch with retries

  /** One call of the market-data source: the rows it returned (possibly none)
      or an exception. */
  datatype FetchAttempt = Returned(bars: seq<Bar>) | Raised

  /** The market-data source: symbol, start, end and attempt number to the result of that call. */
  type Source = (string, int, int, nat) -> FetchAttempt

  /** What fetch_stock_data returns, the waits it made between attempts, and the number of calls. */
  datatype FetchTrace = FetchTrace(data: Option<seq<Bar>>, waits: seq<int>, attempts: nat)

  /** The attempts from number `attempt` on. */
  function FetchFrom(source: Source, symbol: string, start: int, end: int, maxRetries: nat, attempt: nat): FetchTrace
    decreases maxRetries - attempt
  {
    if attempt >= maxRetries then FetchTrace(None, [], 0)
    else
      match source(symbol, start, end, attempt)
      case Returned(bars) => FetchTrace(if bars == [] then None else Some(bars), [], 1)
      case Raised =>
        var rest := FetchFrom(source, symbol, start, end, maxRetries, attempt + 1);
        var wait := if attempt < maxRetries - 1 then [(attempt + 1) * 2] else [];
        FetchTrace(rest.data, wait + rest.waits, rest.attempts + 1)
  }

  /** From attempt `attempt` on: at most maxRetries calls in all; the k-th wait
      lasts 2(attempt+k+1) seconds and one wait separates consecutive calls;
      data is returned only when non-empty, from the last call, after every
      earlier call raised. */
  lemma {:induction false} FetchFromFacts(source: Source, symbol: string, start: int, end: int, maxRetries: nat, attempt: nat)
    ensures var r := FetchFrom(source, symbol, start, end, maxRetries, attempt);
      && attempt + r.attempts <= Max(maxRetries, attempt)
      && (attempt < maxRetries ==> r.attempts >= 1 && |r.waits| == r.attempts - 1)
      && (attempt >= maxRetries ==> r.attempts == 0 && r.waits == [] && r.data.None?)
      && (forall k :: 0 <= k < |r.waits| ==> r.waits[k] == 2 * (attempt + k + 1))
      && (r.data.Some? ==>
            && r.data.value != []
            && source(symbol, start, end, attempt + r.attempts - 1) == Returned(r.data.value))
      && (forall a :: attempt <= a < attempt + r.attempts - 1 ==> source(symbol, start, end, a).Raised?)
    decreases maxRetries - attempt
  {
    if attempt < maxRetries && source(symbol, start, end, attempt).Raised? {
      FetchFromFacts(source, symbol, start, end, maxRetries, attempt + 1);
    }
  }

  /** The whole of fetch_stock_data: at most maxRetries calls, waits of 2, 4, ...
      seconds between them, data only when a call returned rows. */
  lemma FetchStockDataFacts(source: Source, symbol: string, start: int, end: int, maxRetries: nat)
    ensures var r := FetchFrom(source, symbol, start, end, maxRetries, 0);
      && r.attempts <= maxRetries
      && (maxRetries > 0 ==> |r.waits| == r.attempts - 1)
      && (forall k :: 0 <= k < |r.waits| ==> r.waits[k] == 2 * (k + 1))
      && (r.data.Some? ==> r.data.value != [] && source(symbol, start, end, r.attempts - 1) == Returned(r.data.value))
      && (r.data.None? && r.attempts < maxRetries ==> source(symbol, start, end, r.attempts - 1) == Returned([]))
  {
    FetchFromFacts(source, symbol, start, end, maxRetries, 0);
    var r := FetchFrom(source, symbol, start, end, maxRetries, 0);
    if r.data.None? && r.attempts < maxRetries {
      FetchEndsWithEmpty(source, symbol, start, end, maxRetries, 0);
    }
  }

  /** Stopping early without data means the last call returned no rows. */
  lemma {:induction false} FetchEndsWithEmpty(source: Source, symbol: string, start: int, end: int, maxRetries: nat, attempt: nat)
    requires attempt < maxRetries
    ensures var r := FetchFrom(source, symbol, start, end, maxRetries, attempt);
      r.data.None? && attempt + r.attempts < maxRetries ==> source(symbol, start, end, attempt + r.attempts - 1) == Returned([])
    decreases maxRetries - attempt
  {
    if source(symbol, start, end, attempt).Raised? && attempt + 1 < maxRetries {
      FetchEndsWithEmpty(source, symbol, start, end, maxRetries, attempt + 1);
    }
  }

  // ---------------------------------------------------------------------------
  // Upsert of bars

  /** The index of the last fetched bar of date `d`, None when no bar has that date. */
  function LastOn(bars: seq<Bar>, d: int): (r: Option<nat>)
    ensures r.Some? ==> r.value < |bars| && bars[r.value].date == d
    ensures r.Some? ==> forall j :: r.value < j < |bars| ==> bars[j].date != d
    ensures r.None? ==> forall i :: 0 <= i < |bars| ==> bars[i].date != d
    decreases |bars|
  {
    if bars == [] then None
    else if bars[|bars| - 1].date == d then Some(|bars| - 1)
    else LastOn(bars[..|bars| - 1], d)
  }

  /** The rows of the symbol written by executemany in order: a later row with
      the same date overwrites an earlier one. Other symbols are untouched. */
  function UpsertBars(t: StockTable, symbol: string, bars: seq<Bar>): (r: StockTable)
    ensures forall k: BarKey :: k.symbol != symbol ==> (k in r <==> k in t) && (k in t ==> r[k] == t[k])
    ensures forall k :: k in t ==> k in r
    decreases |bars|
  {
    if bars == [] then t
    else
      var last := bars[|bars| - 1];
      UpsertBars(t, symbol, bars[..|bars| - 1])[BarKey(symbol, last.date) := ToQuote(last)]
  }

  /** The stored row of a fetched date is the last fetched bar of that date;
      the row of a date not fetched keeps its value (or stays absent). */
  lemma {:induction false} UpsertBarsAt(t: StockTable, symbol: string, bars: seq<Bar>, d: int)
    ensures var r := UpsertBars(t, symbol, bars);
      var key := BarKey(symbol, d);
      var last := LastOn(bars, d);
      && (last.Some? ==> key in r && r[key] == ToQuote(bars[last.value]))
      && (last.None? ==> (key in r <==> key in t) && (key in t ==> r[key] == t[key]))
    decreases |bars|
  {
    if bars != [] && bars[|bars| - 1].date != d {
      var init := bars[..|bars| - 1];
      UpsertBarsAt(t, symbol, init, d);
      var last := LastOn(init, d);
      if last.Some? {
        assert init[last.value] == bars[last.value];
      }
    }
  }

  /** Saving the same rows twice leaves the table as saving them once. */
  lemma UpsertBarsIdempotent(t: StockTable, symbol: string, bars: seq<Bar>)
    ensures UpsertBars(UpsertBars(t, symbol, bars), symbol, bars) == UpsertBars(t, symbol, bars)
  {
    var once := UpsertBars(t, symbol, bars);
    var twice := UpsertBars(once, symbol, bars);
    forall k | k in twice ensures k in once && twice[k] == once[k] {
      if k.symbol == symbol {
        UpsertBarsAt(t, symbol, bars, k.date);
        UpsertBarsAt(once, symbol, bars, k.date);
      }
    }
    assert twice.Keys == once.Keys;
  }

  // ---------------------------------------------------------------------------
  // One symbol, and a whole run

  /** The database as the processing loop meets it: `readOk` says whether the
      date-range query for a symbol succeeds (when it raises, the per-stock
      handler counts the symbol as failed), `writeOk` whether the write of the
      symbol's rows commits. */
  datatype Storage = Storage(readOk: string -> bool, writeOk: string -> bool)

  /** What happens to one symbol in the processing loop. */
  datatype SymbolResult = ReadFailed | Skipped | NoData | Stored(status: FetchStatus, records: nat) | SaveFailed

  /** The processing of one symbol: date range, period, fetch, save. */
  function ProcessSymbol(t: StockTable, symbol: string, target: int, source: Source, maxRetries: nat,
                         io: Storage): (StockTable, SymbolResult)
  {
    if !io.readOk(symbol) then (t, ReadFailed)
    else
      var p := CalculateFetchPeriod(t, symbol, target);
      if p.status == Skip then (t, Skipped)
      else
        var data := FetchFrom(source, symbol, p.start, p.end, maxRetries, 0).data;
        if data.None? then (t, NoData)
        else if io.writeOk(symbol) then (UpsertBars(t, symbol, data.value), Stored(p.status, |data.value|))
        else (t, SaveFailed)
  }

  /** A symbol fails before its period exactly when the date-range read
      raises, and is skipped exactly when its period says so; a fetch that
      yields no rows is NoData; fetched rows are stored when the write commits
      and fail the symbol otherwise. Only a successful save changes the table,
      by upserting the fetched rows of that symbol alone, and it counts them
      all, at least one. */
  lemma ProcessSymbolFacts(t: StockTable, symbol: string, target: int, source: Source, maxRetries: nat,
                           io: Storage)
    ensures var (table, r) := ProcessSymbol(t, symbol, target, source, maxRetries, io);
      var p := CalculateFetchPeriod(t, symbol, target);
      var fetched := io.readOk(symbol) && p.status != Skip
        && FetchFrom(source, symbol, p.start, p.end, maxRetries, 0).data.Some?;
      && (r.ReadFailed? <==> !io.readOk(symbol))
      && (r.Skipped? <==> io.readOk(symbol) && p.status == Skip)
      && (r.NoData? <==> io.readOk(symbol) && p.status != Skip && !fetched)
      && (r.Stored? <==> fetched && io.writeOk(symbol))
      && (r.SaveFailed? <==> fetched && !io.writeOk(symbol))
      && (r.Stored? ==> r.status == p.status && r.records >= 1)
      && (r.Stored? ==> r.records == |FetchFrom(source, symbol, p.start, p.end, maxRetries, 0).data.value|)
      && (!r.Stored? ==> table == t)
      && (forall k :: k in t ==> k in table)
      && (forall k: BarKey :: k.symbol != symbol ==> (k in table <==> k in t) && (k in t ==> table[k] == t[k]))
  {
    var p := CalculateFetchPeriod(t, symbol, target);
    if io.readOk(symbol) && p.status != Skip {
      FetchFromFacts(source, symbol, p.start, p.end, maxRetries, 0);
    }
  }

  /** The table and the counters of the processing loop. */
  datatype Progress = Progress(
    table: StockTable, processed: nat, successfulNew: nat, successfulUpdate: nat, failed: nat, totalNewRecords: nat)

  function Tally(p: Progress, table: StockTable, r: SymbolResult): Progress {
    match r
    case Stored(status, n) =>
      if status == New then Progress(table, p.processed + 1, p.successfulNew + 1, p.successfulUpdate, p.failed, p.totalNewRecords + n)
      else Progress(table, p.processed + 1, p.successfulNew, p.successfulUpdate + 1, p.failed, p.totalNewRecords + n)
    case SaveFailed | ReadFailed => Progress(table, p.processed + 1, p.successfulNew, p.successfulUpdate, p.failed + 1, p.totalNewRecords)
    case _ => Progress(table, p.processed + 1, p.successfulNew, p.successfulUpdate, p.failed, p.totalNewRecords)
  }

  /** The state after processing one more symbol. */
  function Advance(p: Progress, symbol: string, target: int, source: Source, maxRetries: nat, io: Storage): Progress {
    var (table, r) := ProcessSymbol(p.table, symbol, target, source, maxRetries, io);
    Tally(p, table, r)
  }

  /** One more symbol is one more processed: a stored new symbol counts as a
      new success, a stored known one as an update, a failed read or write
      as a failure, and only a stored symbol adds its records. */
  lemma AdvanceCounters(p: Progress, symbol: string, target: int, source: Source, maxRetries: nat, io: Storage)
    ensures var q := Advance(p, symbol, target, source, maxRetries, io);
      var r := ProcessSymbol(p.table, symbol, target, source, maxRetries, io).1;
      var period := CalculateFetchPeriod(p.table, symbol, target);
      var stored := r.Stored?;
      && q.processed == p.processed + 1
      && q.successfulNew == p.successfulNew + (if stored && period.status == New then 1 else 0)
      && q.successfulUpdate == p.successfulUpdate + (if stored && period.status == Update then 1 else 0)
      && q.failed == p.failed + (if !io.readOk(symbol) || r.SaveFailed? then 1 else 0)
      && q.totalNewRecords == p.totalNewRecords + (if stored then r.records else 0)
  {
    ProcessSymbolFacts(p.table, symbol, target, source, maxRetries, io);
  }

  /** The state after processing `symbols` in order, starting from table `t`. */
  function ProcessAll(t: StockTable, symbols: seq<string>, target: int, source: Source, maxRetries: nat,
                      io: Storage): Progress
    decreases |symbols|
  {
    if symbols == [] then Progress(t, 0, 0, 0, 0, 0)
    else Advance(ProcessAll(t, symbols[..|symbols| - 1], target, source, maxRetries, io),
                 symbols[|symbols| - 1], target, source, maxRetries, io)
  }

  /** Processing one more symbol of the list continues from the state of the shorter prefix. */
  lemma ProcessAllStep(t: StockTable, symbols: seq<string>, k: nat, target: int, source: Source, maxRetries: nat,
                       io: Storage)
    requires k < |symbols|
    ensures ProcessAll(t, symbols[..k + 1], target, source, maxRetries, io)
      == Advance(ProcessAll(t, symbols[..k], target, source, maxRetries, io), symbols[k], target, source, maxRetries, io)
  {
    assert symbols[..k + 1][..k] == symbols[..k];
  }

  /** Every symbol is processed once; each success or failure is one
      processed symbol; every successful save adds at least one record. */
  lemma {:induction false} ProcessAllCounts(t: StockTable, symbols: seq<string>, target: int, source: Source, maxRetries: nat,
                                            io: Storage)
    ensures var p := ProcessAll(t, symbols, target, source, maxRetries, io);
      && p.processed == |symbols|
      && p.successfulNew + p.successfulUpdate + p.failed <= p.processed
      && p.totalNewRecords >= p.successfulNew + p.successfulUpdate
    decreases |symbols|
  {
    if symbols != [] {
      var init := symbols[..|symbols| - 1];
      ProcessAllCounts(t, init, target, source, maxRetries, io);
      var prev := ProcessAll(t, init, target, source, maxRetries, io);
      ProcessSymbolFacts(prev.table, symbols[|symbols| - 1], target, source, maxRetries, io);
    }
  }

  /** No stored row disappears, and the rows of symbols outside the list are untouched. */
  lemma {:induction false} ProcessAllTable(t: StockTable, symbols: seq<string>, target: int, source: Source, maxRetries: nat,
                                           io: Storage)
    ensures var p := ProcessAll(t, symbols, target, source, maxRetries, io);
      && (forall k :: k in t ==> k in p.table)
      && (forall k: BarKey :: k.symbol !in symbols ==> (k in p.table <==> k in t))
      && (forall k: BarKey :: k.symbol !in symbols && k in t ==> p.table[k] == t[k])
    decreases |symbols|
  {
    if symbols != [] {
      var init := symbols[..|symbols| - 1];
      ProcessAllTable(t, init, target, source, maxRetries, io);
      var prev := ProcessAll(t, init, target, source, maxRetries, io);
      ProcessSymbolFacts(prev.table, symbols[|symbols| - 1], target, source, maxRetries, io);
      assert forall s :: s in init ==> s in symbols;
    }
  }

  /** Plan counts of the analysis loop, and the approximate number of days to fetch. */
  datatype Plan = Plan(newStocks: nat, updateStocks: nat, skipStocks: nat, expectedDays: int)

  function PlanOf(t: StockTable, symbols: seq<string>, target: int): Plan
    decreases |symbols|
  {
    if symbols == [] then Plan(0, 0, 0, 0)
    else
      var prev := PlanOf(t, symbols[..|symbols| - 1], target);
      var p := CalculateFetchPeriod(t, symbols[|symbols| - 1], target);
      match p.status
      case New => prev.(newStocks := prev.newStocks + 1, expectedDays := prev.expectedDays + (target - BaseStartDate))
      case Update => prev.(updateStocks := prev.updateStocks + 1, expectedDays := prev.expectedDays + (p.end - p.start))
      case Skip => prev.(skipStocks := prev.skipStocks + 1)
  }

  /** Every symbol is classified exactly once. */
  lemma {:induction false} PlanCountsSum(t: StockTable, symbols: seq<string>, target: int)
    ensures var p := PlanOf(t, symbols, target);
      p.newStocks + p.updateStocks + p.skipStocks == |symbols|
    decreases |symbols|
  {
    if symbols != [] {
      PlanCountsSum(t, symbols[..|symbols| - 1], target);
    }
  }

  /** all_stocks[:test_limit], with Python's reading of a negative bound. */
  function ApplyTestLimit(stocks: seq<MasterRow>, testLimit: Option<int>): (r: seq<MasterRow>)
    ensures testLimit.None? ==> r == stocks
    ensures testLimit.Some? && testLimit.value >= 0 ==> |r| == Min(testLimit.value, |stocks|)
    ensures testLimit.Some? && testLimit.value < 0 ==> |r| == Max(|stocks| + testLimit.value, 0)
    ensures r == stocks[..|r|]
  {
    match testLimit
    case None => stocks
    case Some(k) =>
      if k >= 0 then (if k <= |stocks| then stocks[..k] else stocks)
      else if |stocks| + k >= 0 then stocks[..|stocks| + k] else []
  }

  function SymbolsOf(stocks: seq<MasterRow>): (r: seq<string>)
    ensures |r| == |stocks| && forall i :: 0 <= i < |r| ==> r[i] == stocks[i].symbol
  {
    seq(|stocks|, i requires 0 <= i < |stocks| => stocks[i].symbol)
  }

  datatype RunSummary = RunSummary(target: int, plan: Plan, progress: Progress)

  /** Result of collect_incremental_data: an exception ended it (the holiday
      download, or a batch size of zero), the master list was empty, or it ran to the end. */
  datatype RunResult = Aborted | EmptyMaster | Completed(summary: RunSummary)

  class IncrementalStockCollector {
    const batchSize: int
    const maxRetries: nat
    const testLimit: Option<int>
    const businessDays: BusinessDayCalculator

    constructor (batchSize: int, maxRetries: nat, testLimit: Option<int>, businessDays: BusinessDayCalculator)
      ensures this.batchSize == batchSize && this.maxRetries == maxRetries
      ensures this.testLimit == testLimit && this.businessDays == businessDays
    {
      this.batchSize := batchSize;
      this.maxRetries := maxRetries;
      this.testLimit := testLimit;
      this.businessDays := businessDays;
    }

    /** fetch_stock_data: returns the data with the waits and the number of calls made. */
    method FetchStockData(source: Source, symbol: string, start: int, end: int)
      returns (data: Option<seq<Bar>>, waits: seq<int>, attempts: nat)
      ensures FetchTrace(data, waits, attempts) == FetchFrom(source, symbol, start, end, maxRetries, 0)
    {
      waits := [];
      var attempt: nat := 0;
      while attempt < maxRetries
        invariant attempt <= maxRetries
        invariant var rest := FetchFrom(source, symbol, start, end, maxRetries, attempt);
          FetchFrom(source, symbol, start, end, maxRetries, 0)
            == FetchTrace(rest.data, waits + rest.waits, attempt + rest.attempts)
        decreases maxRetries - attempt
      {
        var result := source(symbol, start, end, attempt);
        if result.Returned? {
          if result.bars == [] {
            return None, waits, attempt + 1;
          }
          return Some(result.bars), waits, attempt + 1;
        }
        ghost var before := waits;
        if attempt < maxRetries - 1 {
          waits := waits + [(attempt + 1) * 2];
        }
        ghost var rest := FetchFrom(source, symbol, start, end, maxRetries, attempt + 1);
        assert before + ((waits[|before|..]) + rest.waits) == waits + rest.waits by {
          assert waits == before + waits[|before|..];
        }
        attempt := attempt + 1;
      }
      return None, waits, attempt;
    }

    /** save_stock_data: an empty frame is a success without a write; otherwise
        every row is upserted in one transaction, which either commits (true)
        or leaves the table as it was (false). */
    method SaveStockData(db: Database, symbol: string, bars: seq<Bar>, writeOk: string -> bool) returns (ok: bool)
      modifies db`stocks
      ensures ok <==> bars == [] || writeOk(symbol)
      ensures db.stocks == if bars != [] && writeOk(symbol) then UpsertBars(old(db.stocks), symbol, bars) else old(db.stocks)
    {
      if bars == [] {
        return true;
      }
      var staged := db.stocks;
      for i := 0 to |bars|
        invariant staged == UpsertBars(db.stocks, symbol, bars[..i])
      {
        assert bars[..i + 1][..i] == bars[..i];
        staged := staged[BarKey(symbol, bars[i].date) := ToQuote(bars[i])];
      }
      assert bars[..|bars|] == bars;
      if !writeOk(symbol) {
        return false;
      }
      db.stocks := staged;
      return true;
    }

    /** The body of the per-stock loop: period, fetch when not skipped, save when data came back. */
    method ProcessStock(db: Database, symbol: string, target: int, source: Source, io: Storage)
      returns (r: SymbolResult)
      modifies db`stocks
      ensures (db.stocks, r) == ProcessSymbol(old(db.stocks), symbol, target, source, maxRetries, io)
    {
      if !io.readOk(symbol) {
        return ReadFailed;
      }
      var period := CalculateFetchPeriod(db.stocks, symbol, target);
      if period.status == Skip {
        return Skipped;
      }
      var data, _, _ := FetchStockData(source, symbol, period.start, period.end);
      FetchFromFacts(source, symbol, period.start, period.end, maxRetries, 0);
      if data.None? {
        return NoData;
      }
      var saved := SaveStockData(db, symbol, data.value, io.writeOk);
      if saved {
        return Stored(period.status, |data.value|);
      }
      return SaveFailed;
    }

    /** One pass of the per-stock loop with its counters. */
    method ProcessAndCount(db: Database, symbol: string, target: int, source: Source, io: Storage,
                           before: Progress) returns (after: Progress)
      requires db.stocks == before.table
      modifies db`stocks
      ensures after == Advance(before, symbol, target, source, maxRetries, io)
      ensures db.stocks == after.table
    {
      var result := ProcessStock(db, symbol, target, source, io);
      after := Tally(before, db.stocks, result);
    }

    /** The analysis loop: classifies every symbol against the table and sums the expected days. */
    method AnalysePlan(t: StockTable, symbols: seq<string>, target: int) returns (plan: Plan)
      ensures plan == PlanOf(t, symbols, target)
    {
      var newStocks, updateStocks, skipStocks, expectedDays := 0, 0, 0, 0;
      for i := 0 to |symbols|
        invariant Plan(newStocks, updateStocks, skipStocks, expectedDays) == PlanOf(t, symbols[..i], target)
      {
        assert symbols[..i + 1][..i] == symbols[..i];
        var period := CalculateFetchPeriod(t, symbols[i], target);
        match period.status {
          case New =>
            newStocks := newStocks + 1;
            expectedDays := expectedDays + (target - BaseStartDate);
          case Update =>
            updateStocks := updateStocks + 1;
            expectedDays := expectedDays + (period.end - period.start);
          case Skip =>
            skipStocks := skipStocks + 1;
        }
      }
      assert symbols[..|symbols|] == symbols;
      plan := Plan(newStocks, updateStocks, skipStocks, expectedDays);
    }

    /** One batch of the processing loop: the symbols from batchStart up to
        batchEnd in turn, continuing the counters of the earlier batches. */
    method ProcessBatch(db: Database, ghost t0: StockTable, symbols: seq<string>, batchStart: nat, batchEnd: nat,
                        target: int, source: Source, io: Storage, before: Progress)
      returns (after: Progress)
      requires batchStart <= batchEnd <= |symbols|
      requires before == ProcessAll(t0, symbols[..batchStart], target, source, maxRetries, io)
      requires db.stocks == before.table
      modifies db`stocks
      ensures after == ProcessAll(t0, symbols[..batchEnd], target, source, maxRetries, io)
      ensures db.stocks == after.table
    {
      after := before;
      for k := batchStart to batchEnd
        invariant after == ProcessAll(t0, symbols[..k], target, source, maxRetries, io)
        invariant db.stocks == after.table
      {
        ProcessAllStep(t0, symbols, k, target, source, maxRetries, io);
        after := ProcessAndCount(db, symbols[k], target, source, io, after);
      }
    }

    /** The processing loops: batches of `batchSize` symbols, each symbol in
        turn, with the counters of the run (Tally). Batching does not change
        the outcome: it equals processing the symbols one after the other. */
    method ProcessInBatches(db: Database, symbols: seq<string>, target: int, source: Source, io: Storage)
      returns (progress: Progress)
      requires batchSize > 0
      modifies db`stocks
      ensures progress == ProcessAll(old(db.stocks), symbols, target, source, maxRetries, io)
      ensures db.stocks == progress.table
    {
      ghost var t0 := db.stocks;
      progress := Progress(db.stocks, 0, 0, 0, 0, 0);
      var batchStart := 0;
      while batchStart < |symbols|
        invariant 0 <= batchStart <= |symbols|
        invariant progress == ProcessAll(t0, symbols[..batchStart], target, source, maxRetries, io)
        invariant db.stocks == progress.table
        decreases |symbols| - batchStart
      {
        var batchEnd := Min(batchStart + batchSize, |symbols|);
        progress := ProcessBatch(db, t0, symbols, batchStart, batchEnd, target, source, io, progress);
        batchStart := batchEnd;
      }
      assert symbols[..batchStart] == symbols;
    }

    /** collect_incremental_data: adjusts the requested day (today when none is
        given) to the latest business day, then classifies every symbol of
        the (possibly limited) master list and processes them in batches.
        A batch size of zero raises once the processing starts; a negative
        one processes nothing. */
    method CollectIncrementalData(db: Database, stocks: seq<MasterRow>, requested: Option<int>, today: int,
                                  csv: HolidayCsv, source: Source, io: Storage)
      returns (r: RunResult)
      modifies db`stocks, businessDays
      ensures var noCalendar := NeedsReload(old(businessDays.holidays), old(businessDays.currentYear),
                                            YearOf(requested.GetOr(today))) && csv.DownloadFailed?;
        && (r.Aborted? <==> noCalendar || (stocks != [] && batchSize == 0))
        && (r.EmptyMaster? <==> !noCalendar && stocks == [])
        && (r.Completed? <==> !noCalendar && stocks != [] && batchSize != 0)
      ensures var reload := NeedsReload(old(businessDays.holidays), old(businessDays.currentYear), YearOf(requested.GetOr(today)));
        if reload && csv.DownloadFailed? then
          businessDays.holidays == old(businessDays.holidays) && businessDays.currentYear == old(businessDays.currentYear)
        else
          && businessDays.holidays == (if reload then LoadedHolidays(csv, YearOf(requested.GetOr(today))).value else old(businessDays.holidays))
          && businessDays.currentYear == (if reload then YearOf(requested.GetOr(today)) else old(businessDays.currentYear))
      ensures !r.Completed? ==> db.stocks == old(db.stocks)
      ensures r.Completed? ==>
        var symbols := SymbolsOf(ApplyTestLimit(stocks, testLimit));
        var s := r.summary;
        && stocks != [] && batchSize != 0
        && s.target == LatestBusinessDayIn(businessDays.holidays, requested.GetOr(today))
        && s.plan == PlanOf(old(db.stocks), symbols, s.target)
        && s.progress == (if batchSize < 0 then Progress(old(db.stocks), 0, 0, 0, 0, 0)
                          else ProcessAll(old(db.stocks), symbols, s.target, source, maxRetries, io))
        && db.stocks == s.progress.table
    {
      var latest := businessDays.LatestBusinessDay(requested.GetOr(today), csv);
      if latest.None? {
        return Aborted;
      }
      var target := latest.value;
      if stocks == [] {
        return EmptyMaster;
      }
      var symbols := SymbolsOf(ApplyTestLimit(stocks, testLimit));
      var plan := AnalysePlan(db.stocks, symbols, target);
      if batchSize == 0 {
        return Aborted;
      }
      var progress := Progress(db.stocks, 0, 0, 0, 0, 0);
      if batchSize > 0 {
        progress := ProcessInBatches(db, symbols, target, source, io);
      }
      return Completed(RunSummary(target, plan, progress));
    }
  }
}
