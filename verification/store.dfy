/**
 * The relational store shared by the collector, the signal detector and the
 * symbol-master importer: the daily-bar table `stocks`, the signal table
 * `signal_detections` and the symbol table `stock_master`, each a map from
 * its unique key to its row. Dates are day numbers (day 0 is 1970-01-01).
 */
module Store {
  import opened Util

  /** One daily OHLCV bar as the detector reads it (a row of `stocks` without the symbol). */
  datatype Bar = Bar(date: int, open: real, high: real, low: real, close: real, volume: int)

  /** The non-key columns of a `stocks` row. */
  datatype Quote = Quote(open: real, high: real, low: real, close: real, volume: int)

  /** UNIQUE(symbol, date) of the `stocks` table. */
  datatype BarKey = BarKey(symbol: string, date: int)

  type StockTable = map<BarKey, Quote>

  /** UNIQUE(symbol, signal_date, signal_type) of the `signal_detections` table. */
  datatype SignalKey = SignalKey(symbol: string, signalDate: int, signalType: string)

  /** One `signal_detections` row; `detectionDate` is the NOW() of the write. */
  datatype Signal = Signal(
    symbol: string, signalDate: int, signalType: string, detectionDate: int,
    hammerOpen: real, hammerHigh: real, hammerLow: real, hammerClose: real, hammerVolume: int,
    lowerShadowRatio: real, upperShadowRatio: real, bodyRatio: real,
    declineDays: nat, declineStartDate: int, totalDeclinePct: real,
    stockName: Option<string>, market: Option<string>, sector: Option<string>)

  type SignalTable = map<SignalKey, Signal>

  /** One `stock_master` row, keyed by its (unique) code. */
  datatype MasterRow = MasterRow(symbol: string, name: string, nameEn: string, sector: string, industry: string)

  type MasterTable = map<string, MasterRow>

  function ToQuote(b: Bar): Quote {
    Quote(b.open, b.high, b.low, b.close, b.volume)
  }

  function AtDate(q: Quote, date: int): (b: Bar)
    ensures ToQuote(b) == q && b.date == date
  {
    Bar(date, q.open, q.high, q.low, q.close, q.volume)
  }

  /** The dates stored for one symbol. */
  function SymbolDates(t: StockTable, symbol: string): (ds: set<int>)
    ensures forall d :: d in ds <==> BarKey(symbol, d) in t
  {
    set k | k in t.Keys && k.symbol == symbol :: k.date
  }

  /** The database: three tables that the batch programs read and upsert. */
  class Database {
    var stocks: StockTable
    var signals: SignalTable
    var master: MasterTable

    constructor (stocks: StockTable, signals: SignalTable, master: MasterTable)
      ensures this.stocks == stocks && this.signals == signals && this.master == master
    {
      this.stocks := stocks;
      this.signals := signals;
      this.master := master;
    }
  }
}
