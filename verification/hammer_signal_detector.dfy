/**
 * The hammer-after-decline detector: for each symbol it looks at the latest
 * business day and the one before, and records a signal when the bar of that
 * day is a hammer preceded by at least four consecutive falling closes.
 */
module Hammer {
  import opened Util
  import opened Store
  import opened Calendar

  /** Minimum number of consecutive falling closes before the hammer. */
  const MinDeclineDays: nat := 4
  /** Number of bars read per symbol and target date. */
  const WindowSize: nat := 20
  /** Number of symbols processed in test mode. */
  const TestModeSymbols: nat := 10
  const SignalType := "hammer_after_decline"

  // ---------------------------------------------------------------------------
  // One candle

  /** The derived quantities of a bar; the ratios are percentages of the range. */
  datatype CandleMetrics = CandleMetrics(
    lowerShadowRatio: real, upperShadowRatio: real, bodyRatio: real,
    totalRange: real, lowerShadow: real, upperShadow: real, bodySize: real,
    closeLowDiff: real, highOpenDiff: real, hammerConditionMet: bool)

  /** The pair (is_hammer, metrics); `metrics` is None for the empty dictionary. */
  datatype HammerCheck = HammerCheck(isHammer: bool, metrics: Option<CandleMetrics>)

  function RealMax(a: real, b: real): real { if a >= b then a else b }
  function RealMin(a: real, b: real): real { if a <= b then a else b }
  function Abs(x: real): real { if x >= 0.0 then x else -x }

  /** part / whole × 100 */
  function Percent(part: real, whole: real): real
    requires whole != 0.0
  {
    part / whole * 100.0
  }

  function Metrics(b: Bar): CandleMetrics
    requires b.high != b.low
  {
    var range := b.high - b.low;
    var body := Abs(b.close - b.open);
    var upper := b.high - RealMax(b.open, b.close);
    var lower := RealMin(b.open, b.close) - b.low;
    CandleMetrics(
      Percent(lower, range), Percent(upper, range), Percent(body, range),
      range, lower, upper, body,
      b.close - b.low, b.high - b.open, b.close - b.low >= b.high - b.open)
  }

  /** is_hammer_candle: a zero-range bar is never a hammer and has no metrics;
      otherwise the bar is a hammer exactly when the close is above the low by
      at least the distance from the open to the high. The shadow ratios are
      reported but do not take part in the decision. */
  function IsHammerCandle(b: Bar): (r: HammerCheck)
    ensures r.metrics.None? <==> b.high == b.low
    ensures r.isHammer <==> b.high != b.low && b.close > b.low && b.close - b.low >= b.high - b.open
    ensures r.metrics.Some? ==> r.metrics.value.hammerConditionMet == (b.close - b.low >= b.high - b.open)
  {
    if b.high - b.low == 0.0 then HammerCheck(false, None)
    else
      var m := Metrics(b);
      HammerCheck(b.close > b.low && m.closeLowDiff >= m.highOpenDiff, Some(m))
  }

  /** Body and the two shadows partition the range, so the three ratios add up to 100. */
  lemma ShadowsPartitionRange(b: Bar)
    requires b.high != b.low
    ensures var m := IsHammerCandle(b).metrics.value;
      m.lowerShadow + m.upperShadow + m.bodySize == m.totalRange
      && m.lowerShadowRatio + m.upperShadowRatio + m.bodyRatio == 100.0
  {
    var m := Metrics(b);
    var range := b.high - b.low;
    assert m.lowerShadow + m.upperShadow + m.bodySize == range;
    calc {
      m.lowerShadowRatio + m.upperShadowRatio + m.bodyRatio;
      (m.lowerShadow + m.upperShadow + m.bodySize) / range * 100.0;
      range / range * 100.0;
      100.0;
    }
  }

  /** A bar that the code classifies as a hammer although its lower shadow is
      only a third of its range. */
  lemma HammerWithoutShadowThreshold()
    ensures var b := Bar(0, 10.0, 12.0, 9.0, 12.0, 1000);
      IsHammerCandle(b).isHammer && IsHammerCandle(b).metrics.value.lowerShadowRatio < 50.0
  {
    var b := Bar(0, 10.0, 12.0, 9.0, 12.0, 1000);
    assert Metrics(b).lowerShadowRatio == 1.0 / 3.0 * 100.0;
  }

  // ---------------------------------------------------------------------------
  // The decline run before the hammer

  /** Number of consecutive strict drops of the close, walking back from bar
      `i`; a drop at bar k means close[k] < close[k-1], and bar 0 is never a drop. */
  function DeclineRun(bars: seq<Bar>, i: int): nat
    requires i < |bars|
    decreases i
  {
    if i <= 0 then 0
    else if bars[i].close < bars[i - 1].close then 1 + DeclineRun(bars, i - 1)
    else 0
  }

  /** The run consists of drops, stays above bar 0, and is maximal. */
  lemma {:induction false} DeclineRunFacts(bars: seq<Bar>, i: int)
    requires 0 <= i < |bars|
    ensures DeclineRun(bars, i) <= i
    ensures forall k :: i - DeclineRun(bars, i) < k <= i ==> bars[k].close < bars[k - 1].close
    ensures i - DeclineRun(bars, i) > 0 ==> bars[i - DeclineRun(bars, i)].close >= bars[i - DeclineRun(bars, i) - 1].close
    decreases i
  {
    if i > 0 && bars[i].close < bars[i - 1].close {
      DeclineRunFacts(bars, i - 1);
    }
  }

  /** n drops ending at bar i make a run of at least n. */
  lemma {:induction false} DeclineRunAtLeast(bars: seq<Bar>, i: int, n: nat)
    requires n <= i < |bars|
    requires forall k :: i - n < k <= i ==> bars[k].close < bars[k - 1].close
    ensures DeclineRun(bars, i) >= n
    decreases n
  {
    if n > 0 {
      DeclineRunAtLeast(bars, i - 1, n - 1);
    }
  }

  /** Adjacent drops chain into a strictly decreasing stretch of closes. */
  lemma {:induction false} DropsChain(bars: seq<Bar>, lo: int, hi: int)
    requires 0 <= lo <= hi < |bars|
    requires forall k :: lo < k <= hi ==> bars[k].close < bars[k - 1].close
    ensures forall a, b :: lo <= a < b <= hi ==> bars[b].close < bars[a].close
    decreases hi - lo
  {
    if lo < hi {
      DropsChain(bars, lo, hi - 1);
      forall a, b | lo <= a < b <= hi ensures bars[b].close < bars[a].close {
        if b == hi && a < hi - 1 {
          assert bars[hi - 1].close < bars[a].close;
        }
      }
    }
  }

  /** The run before the hammer reaches the minimum exactly when the last four
      steps before it are drops. */
  lemma DeclineQualifies(bars: seq<Bar>, h: int)
    requires MinDeclineDays <= h < |bars|
    ensures DeclineRun(bars, h - 1) <= h - 1
    ensures DeclineRun(bars, h - 1) >= MinDeclineDays <==>
      h > MinDeclineDays && forall k :: h - MinDeclineDays <= k <= h - 1 ==> bars[k].close < bars[k - 1].close
  {
    DeclineRunFacts(bars, h - 1);
    if h > MinDeclineDays && forall k :: h - MinDeclineDays <= k <= h - 1 ==> bars[k].close < bars[k - 1].close {
      DeclineRunAtLeast(bars, h - 1, MinDeclineDays);
    }
  }

  datatype DeclineInfo = DeclineInfo(
    declineDays: nat, declineStartDate: int, startPrice: real, endPrice: real, totalDeclinePct: real)

  /** Outcome of check_consecutive_decline; DivisionByZero stands for the
      exception raised when the run starts at a close of zero. */
  datatype DeclineCheck = NoDecline | Decline(info: DeclineInfo) | DivisionByZero

  /** check_consecutive_decline for the hammer at index h: a decline is found
      exactly when the four steps before the hammer are all drops. */
  function ConsecutiveDecline(bars: seq<Bar>, h: int): (r: DeclineCheck)
    requires h < |bars|
    ensures h < MinDeclineDays ==> r.NoDecline?
    ensures !r.NoDecline? <==>
      h > MinDeclineDays && forall k :: h - MinDeclineDays <= k <= h - 1 ==> bars[k].close < bars[k - 1].close
  {
    if h < MinDeclineDays then NoDecline
    else
      DeclineQualifies(bars, h);
      var days := DeclineRun(bars, h - 1);
      if days < MinDeclineDays then NoDecline
      else
        var s := h - 1 - days;
        var startPrice := bars[s].close;
        var endPrice := bars[h - 1].close;
        if startPrice == 0.0 then DivisionByZero
        else Decline(DeclineInfo(days, bars[s].date, startPrice, endPrice, Percent(startPrice - endPrice, startPrice)))
  }

  /** A found decline is a maximal run of at least four strictly falling closes
      ending the day before the hammer; its percentage is measured from the
      first close of the run to the last. */
  lemma DeclineShape(bars: seq<Bar>, h: int)
    requires h < |bars|
    ensures var r := ConsecutiveDecline(bars, h);
      r.Decline? ==>
        var s := h - 1 - r.info.declineDays;
        && MinDeclineDays <= r.info.declineDays <= h - 1
        && r.info.declineStartDate == bars[s].date
        && r.info.startPrice == bars[s].close && r.info.endPrice == bars[h - 1].close
        && (forall a, b :: s <= a < b <= h - 1 ==> bars[b].close < bars[a].close)
        && (s > 0 ==> bars[s].close >= bars[s - 1].close)
        && r.info.startPrice != 0.0
        && r.info.totalDeclinePct == Percent(r.info.startPrice - r.info.endPrice, r.info.startPrice)
    ensures var r := ConsecutiveDecline(bars, h);
      r.DivisionByZero? ==>
        MinDeclineDays <= DeclineRun(bars, h - 1) <= h - 1 && bars[h - 1 - DeclineRun(bars, h - 1)].close == 0.0
  {
    if h >= MinDeclineDays {
      DeclineRunFacts(bars, h - 1);
      var days := DeclineRun(bars, h - 1);
      if days >= MinDeclineDays {
        DropsChain(bars, h - 1 - days, h - 1);
      }
    }
  }

  /** A run that starts at a positive close loses a positive share of it. */
  lemma DeclinePctPositive(bars: seq<Bar>, h: int)
    requires h < |bars|
    requires ConsecutiveDecline(bars, h).Decline?
    requires ConsecutiveDecline(bars, h).info.startPrice > 0.0
    ensures ConsecutiveDecline(bars, h).info.totalDeclinePct > 0.0
  {
    var info := ConsecutiveDecline(bars, h).info;
    DeclineShape(bars, h);
    assert info.endPrice < info.startPrice by {
      var s := h - 1 - info.declineDays;
      assert s < h - 1;
    }
    assert (info.startPrice - info.endPrice) / info.startPrice > 0.0;
  }

  /** The loop of check_consecutive_decline: walks back from h-1 to 1 and stops at
      the first close that is not below the one before it. */
  method CheckConsecutiveDecline(bars: seq<Bar>, h: int) returns (r: DeclineCheck)
    requires h < |bars|
    ensures r == ConsecutiveDecline(bars, h)
  {
    if h < MinDeclineDays {
      return NoDecline;
    }
    var declineDays: nat := 0;
    var i := h - 1;
    while i > 0
      invariant 0 <= i <= h - 1
      invariant declineDays + i == h - 1
      invariant DeclineRun(bars, h - 1) == declineDays + DeclineRun(bars, i)
    {
      if bars[i].close < bars[i - 1].close {
        declineDays := declineDays + 1;
      } else {
        break;
      }
      i := i - 1;
    }
    assert DeclineRun(bars, i) == 0;
    if declineDays < MinDeclineDays {
      return NoDecline;
    }
    var start := h - 1 - declineDays;
    var startPrice := bars[start].close;
    var endPrice := bars[h - 1].close;
    if startPrice == 0.0 {
      return DivisionByZero;
    }
    return Decline(DeclineInfo(declineDays, bars[start].date, startPrice, endPrice, Percent(startPrice - endPrice, startPrice)));
  }

  // ---------------------------------------------------------------------------
  // The bar window of one symbol

  /** The `n` latest of `dates`, ascending (ORDER BY date DESC LIMIT n, then re-sorted). */
  function LatestDates(dates: set<int>, n: nat): (r: seq<int>)
    ensures |r| <= n
    ensures forall i, j :: 0 <= i < j < |r| ==> r[i] < r[j]
    ensures forall d :: d in r ==> d in dates
    decreases n
  {
    if n == 0 || dates == {} then []
    else
      var m := MaxOf(dates);
      var rest := LatestDates(dates - {m}, n - 1);
      assert forall d :: d in rest ==> d < m;
      var r := rest + [m];
      forall i, j | 0 <= i < j < |r| ensures r[i] < r[j] {
        if j == |rest| { assert r[i] == rest[i] && rest[i] in rest; }
        else { assert r[i] == rest[i] && r[j] == rest[j]; }
      }
      r
  }

  /** As many dates are kept as the limit and the set allow. */
  lemma {:induction false} LatestDatesSize(dates: set<int>, n: nat)
    ensures |LatestDates(dates, n)| == Min(n, |dates|)
    decreases n
  {
    if n > 0 && dates != {} {
      var m := MaxOf(dates);
      LatestDatesSize(dates - {m}, n - 1);
      assert |dates - {m}| == |dates| - 1;
    }
  }

  /** Every date left out is older than every date kept. */
  lemma {:induction false} LatestDatesKeepNewest(dates: set<int>, n: nat)
    ensures var r := LatestDates(dates, n);
      forall d :: d in dates && d !in r ==> forall i :: 0 <= i < |r| ==> d < r[i]
    decreases n
  {
    if n > 0 && dates != {} {
      var m := MaxOf(dates);
      var rest := LatestDates(dates - {m}, n - 1);
      LatestDatesKeepNewest(dates - {m}, n - 1);
      var r := rest + [m];
      assert LatestDates(dates, n) == r;
      forall d | d in dates && d !in r ensures forall i :: 0 <= i < |r| ==> d < r[i] {
        assert d != m && d in dates - {m} && d !in rest;
        forall i | 0 <= i < |r| ensures d < r[i] {
          if i < |rest| { assert r[i] == rest[i]; }
        }
      }
    }
  }

  /** Nothing is left out while fewer than `n` dates are kept. */
  lemma {:induction false} LatestDatesKeepAll(dates: set<int>, n: nat)
    ensures var r := LatestDates(dates, n);
      |r| < n ==> forall d :: d in dates ==> d in r
    decreases n
  {
    if n > 0 && dates != {} {
      var m := MaxOf(dates);
      var rest := LatestDates(dates - {m}, n - 1);
      var r := rest + [m];
      assert LatestDates(dates, n) == r;
      if |r| < n {
        assert |rest| < n - 1;
        LatestDatesKeepAll(dates - {m}, n - 1);
        forall d | d in dates ensures d in r {
          if d != m {
            assert d in dates - {m};
            assert d in rest;
          }
        }
      }
    }
  }

  function EligibleDates(t: StockTable, symbol: string, target: int): (e: set<int>)
    ensures forall d :: d in e <==> d <= target && BarKey(symbol, d) in t
  {
    set d | d in SymbolDates(t, symbol) && d <= target
  }

  /** The dates of the bars get_stock_data returns. */
  function WindowDates(t: StockTable, symbol: string, target: int): (ds: seq<int>)
    ensures |ds| <= WindowSize
    ensures forall i :: 0 <= i < |ds| ==> ds[i] <= target && BarKey(symbol, ds[i]) in t
    ensures forall i, j :: 0 <= i < j < |ds| ==> ds[i] < ds[j]
  {
    var e := EligibleDates(t, symbol, target);
    var ds := LatestDates(e, WindowSize);
    assert forall i :: 0 <= i < |ds| ==> ds[i] in e;
    ds
  }

  /** A stored bar on or before the target is left out of the window only
      when the window is full and the bar is older than all of it. */
  lemma WindowDatesComplete(t: StockTable, symbol: string, target: int)
    ensures var ds := WindowDates(t, symbol, target);
      forall d :: d <= target && BarKey(symbol, d) in t && d !in ds ==>
        |ds| == WindowSize && forall i :: 0 <= i < |ds| ==> d < ds[i]
  {
    LatestDatesKeepNewest(EligibleDates(t, symbol, target), WindowSize);
    LatestDatesKeepAll(EligibleDates(t, symbol, target), WindowSize);
  }

  /** get_stock_data: the stored bars at the window dates, in the same order. */
  function StockWindow(t: StockTable, symbol: string, target: int): (w: seq<Bar>)
    ensures var ds := WindowDates(t, symbol, target);
      |w| == |ds| && forall i :: 0 <= i < |w| ==> w[i].date == ds[i] && ToQuote(w[i]) == t[BarKey(symbol, ds[i])]
  {
    BarsAt(t, symbol, WindowDates(t, symbol, target))
  }

  /** The stored bars of the symbol at the given dates. */
  function BarsAt(t: StockTable, symbol: string, ds: seq<int>): (w: seq<Bar>)
    requires forall i :: 0 <= i < |ds| ==> BarKey(symbol, ds[i]) in t
    ensures |w| == |ds|
    ensures forall i :: 0 <= i < |w| ==> w[i].date == ds[i] && ToQuote(w[i]) == t[BarKey(symbol, ds[i])]
    decreases |ds|
  {
    if ds == [] then []
    else BarsAt(t, symbol, ds[..|ds| - 1]) + [AtDate(t[BarKey(symbol, ds[|ds| - 1])], ds[|ds| - 1])]
  }

  // ---------------------------------------------------------------------------
  // The decision for one symbol

  datatype Hit = Hit(bar: Bar, metrics: CandleMetrics, decline: DeclineInfo)

  /** What detect_signals does with one (symbol, target date): Raised stands for
      an exception, which ends the processing of the symbol. */
  datatype Decision = NoSignal | Emit(hit: Hit) | Raised

  /** The decision detect_signals takes for one target date, given the window. */
  function DecideDate(window: seq<Bar>, target: int): Decision {
    if |window| < MinDeclineDays + 1 then NoSignal
    else
      var latest := window[|window| - 1];
      if latest.date != target then NoSignal
      else
        var check := IsHammerCandle(latest);
        if !check.isHammer then NoSignal
        else
          match ConsecutiveDecline(window, |window| - 1)
          case NoDecline => NoSignal
          case DivisionByZero => Raised
          case Decline(info) => Emit(Hit(latest, check.metrics.value, info))
  }

  /** A date is acted on exactly when the window holds more than five bars, the
      last one on the target date, that bar is a hammer and the four steps before
      it are drops; the action is an exception when the run starts at a zero
      close, and otherwise a signal for that last bar. */
  lemma DecideDateFacts(window: seq<Bar>, target: int)
    ensures var d := DecideDate(window, target);
      var h := |window| - 1;
      !d.NoSignal? <==>
        && |window| > MinDeclineDays + 1
        && window[h].date == target
        && IsHammerCandle(window[h]).isHammer
        && forall k :: h - MinDeclineDays <= k <= h - 1 ==> window[k].close < window[k - 1].close
    ensures var d := DecideDate(window, target);
      d.Emit? ==> d.hit.bar == window[|window| - 1] && d.hit.decline.declineDays >= MinDeclineDays
    ensures var d := DecideDate(window, target);
      d.Raised? <==> !d.NoSignal? && ConsecutiveDecline(window, |window| - 1).DivisionByZero?
  {
    if |window| >= MinDeclineDays + 1 {
      DeclineShape(window, |window| - 1);
    }
  }

  /** With exactly five bars (the least the detector accepts) no signal is possible:
      four drops need five bars before the hammer. */
  lemma FiveBarsNeverSignal(window: seq<Bar>, target: int)
    requires |window| == MinDeclineDays + 1
    ensures DecideDate(window, target).NoSignal?
  {
    DecideDateFacts(window, target);
  }

  /** The checks detect_signals makes for one target date, in its order. */
  method CheckDate(window: seq<Bar>, target: int) returns (d: Decision)
    ensures d == DecideDate(window, target)
  {
    if |window| < MinDeclineDays + 1 {
      return NoSignal;
    }
    var latest := window[|window| - 1];
    if latest.date != target {
      return NoSignal;
    }
    var check := IsHammerCandle(latest);
    if !check.isHammer {
      return NoSignal;
    }
    var decline := CheckConsecutiveDecline(window, |window| - 1);
    match decline {
      case NoDecline => return NoSignal;
      case DivisionByZero => return Raised;
      case Decline(info) => return Emit(Hit(latest, check.metrics.value, info));
    }
  }

  /** The loop over the target dates of one symbol: stops at the first signal
      (which detect_signals saves before leaving the loop) or exception. */
  method EvaluateDates(t: StockTable, symbol: string, dates: seq<int>) returns (v: SymbolOutcome)
    ensures v == EvaluateSymbol(t, symbol, dates)
  {
    var j := 0;
    while j < |dates|
      invariant 0 <= j <= |dates|
      invariant EvaluateSymbol(t, symbol, dates) == EvaluateSymbol(t, symbol, dates[j..])
    {
      var target := dates[j];
      assert dates[j..][0] == target && dates[j..][1..] == dates[j + 1..];
      var window := StockWindow(t, symbol, target);
      var decision := CheckDate(window, target);
      if decision.Raised? {
        return Aborted;
      }
      if decision.Emit? {
        return HitOn(target, decision.hit);
      }
      j := j + 1;
    }
    return NoHit;
  }

  datatype SymbolOutcome = NoHit | HitOn(date: int, hit: Hit) | Aborted

  /** The target dates of one symbol, in order, until the first signal or exception. */
  function EvaluateSymbol(t: StockTable, symbol: string, dates: seq<int>): (v: SymbolOutcome)
    ensures v.HitOn? ==> v.date in dates
  {
    FirstAction(d => DecideDate(StockWindow(t, symbol, d), d), dates)
  }

  /** The outcome of trying the dates in order until a decision other than NoSignal. */
  function FirstAction(decide: int -> Decision, dates: seq<int>): (v: SymbolOutcome)
    ensures v.HitOn? ==> v.date in dates
    decreases |dates|
  {
    if dates == [] then NoHit
    else
      match decide(dates[0])
      case NoSignal => FirstAction(decide, dates[1..])
      case Raised => Aborted
      case Emit(hit) => HitOn(dates[0], hit)
  }

  lemma {:induction false} FirstActionFacts(decide: int -> Decision, dates: seq<int>)
    ensures var v := FirstAction(decide, dates);
      v.HitOn? ==>
        exists j :: 0 <= j < |dates| && dates[j] == v.date && decide(v.date) == Emit(v.hit)
          && forall i :: 0 <= i < j ==> decide(dates[i]).NoSignal?
    decreases |dates|
  {
    var v := FirstAction(decide, dates);
    if dates != [] && v.HitOn? && decide(dates[0]).NoSignal? {
      var rest := dates[1..];
      FirstActionFacts(decide, rest);
      var j :| 0 <= j < |rest| && rest[j] == v.date && decide(v.date) == Emit(v.hit)
        && forall i :: 0 <= i < j ==> decide(rest[i]).NoSignal?;
      assert dates[j + 1] == v.date;
      forall i | 0 <= i < j + 1 ensures decide(dates[i]).NoSignal? {
        if i > 0 { assert dates[i] == rest[i - 1]; }
      }
    }
  }

  /** A hit is the first target date whose decision is not NoSignal, and that
      decision emits the hit. */
  lemma HitIsFirstAction(t: StockTable, symbol: string, dates: seq<int>)
    ensures var v := EvaluateSymbol(t, symbol, dates);
      v.HitOn? ==>
        exists j :: 0 <= j < |dates| && dates[j] == v.date
          && DecideDate(StockWindow(t, symbol, v.date), v.date) == Emit(v.hit)
          && forall i :: 0 <= i < j ==> DecideDate(StockWindow(t, symbol, dates[i]), dates[i]).NoSignal?
  {
    FirstActionFacts(d => DecideDate(StockWindow(t, symbol, d), d), dates);
  }

  /** The hammer of a hit is the stored bar of the signal date. */
  lemma HitBarIsStored(t: StockTable, symbol: string, dates: seq<int>)
    ensures var v := EvaluateSymbol(t, symbol, dates);
      v.HitOn? ==> v.hit.bar.date == v.date && BarKey(symbol, v.date) in t && ToQuote(v.hit.bar) == t[BarKey(symbol, v.date)]
  {
    var v := EvaluateSymbol(t, symbol, dates);
    if v.HitOn? {
      HitIsFirstAction(t, symbol, dates);
      var w := StockWindow(t, symbol, v.date);
      DecideDateFacts(w, v.date);
      assert v.hit.bar == w[|w| - 1];
    }
  }

  // ---------------------------------------------------------------------------
  // The signal table

  /** Name, market and sector of the symbol in the master table, each possibly NULL. */
  datatype StockInfo = StockInfo(name: Option<string>, market: Option<string>, sector: Option<string>)

  function KeyOf(s: Signal): SignalKey {
    SignalKey(s.symbol, s.signalDate, s.signalType)
  }

  function BuildSignal(symbol: string, date: int, hit: Hit, now: int, info: StockInfo): Signal {
    Signal(symbol, date, SignalType, now,
      hit.bar.open, hit.bar.high, hit.bar.low, hit.bar.close, hit.bar.volume,
      hit.metrics.lowerShadowRatio, hit.metrics.upperShadowRatio, hit.metrics.bodyRatio,
      hit.decline.declineDays, hit.decline.declineStartDate, hit.decline.totalDeclinePct,
      info.name, info.market, info.sector)
  }

  /** The columns that ON DUPLICATE KEY UPDATE leaves as first written. */
  predicate SameSnapshot(a: Signal, b: Signal) {
    && a.symbol == b.symbol && a.signalDate == b.signalDate && a.signalType == b.signalType
    && a.hammerOpen == b.hammerOpen && a.hammerHigh == b.hammerHigh && a.hammerLow == b.hammerLow
    && a.hammerClose == b.hammerClose && a.hammerVolume == b.hammerVolume
    && a.declineStartDate == b.declineStartDate
    && a.stockName == b.stockName && a.market == b.market && a.sector == b.sector
  }

  /** The columns that ON DUPLICATE KEY UPDATE overwrites. */
  predicate SameMeasures(a: Signal, b: Signal) {
    && a.detectionDate == b.detectionDate
    && a.lowerShadowRatio == b.lowerShadowRatio && a.upperShadowRatio == b.upperShadowRatio
    && a.bodyRatio == b.bodyRatio && a.declineDays == b.declineDays
    && a.totalDeclinePct == b.totalDeclinePct
  }

  /** The two column groups cover the whole row. */
  lemma ColumnGroupsCoverRow(a: Signal, b: Signal)
    requires SameSnapshot(a, b) && SameMeasures(a, b)
    ensures a == b
  {
  }

  /** save_signal: inserts a new key; for an existing key refreshes only the measures. */
  function UpsertSignal(table: SignalTable, s: Signal): (r: SignalTable)
    ensures r.Keys == table.Keys + {KeyOf(s)}
    ensures forall k :: k in table && k != KeyOf(s) ==> r[k] == table[k]
    ensures KeyOf(s) !in table ==> r[KeyOf(s)] == s
    ensures KeyOf(s) in table ==> SameSnapshot(r[KeyOf(s)], table[KeyOf(s)]) && SameMeasures(r[KeyOf(s)], s)
  {
    var k := KeyOf(s);
    if k in table then
      var old_ := table[k];
      table[k := old_.(detectionDate := s.detectionDate,
                       lowerShadowRatio := s.lowerShadowRatio, upperShadowRatio := s.upperShadowRatio,
                       bodyRatio := s.bodyRatio, declineDays := s.declineDays,
                       totalDeclinePct := s.totalDeclinePct)]
    else table[k := s]
  }

  /** Saving a signal again later, with a new detection date, leaves the table
      as saving it only that later time. */
  lemma UpsertSignalIdempotent(table: SignalTable, s: Signal, later: int)
    ensures UpsertSignal(UpsertSignal(table, s), s.(detectionDate := later))
         == UpsertSignal(table, s.(detectionDate := later))
  {
    var resaved := s.(detectionDate := later);
    var twice := UpsertSignal(UpsertSignal(table, s), resaved);
    var direct := UpsertSignal(table, resaved);
    assert KeyOf(resaved) == KeyOf(s);
    assert twice.Keys == direct.Keys;
    forall k | k in twice ensures twice[k] == direct[k] {
      if k == KeyOf(s) {
        ColumnGroupsCoverRow(twice[k], direct[k]);
      }
    }
  }

  // ---------------------------------------------------------------------------
  // A whole run

  datatype DetectionRun = DetectionRun(signals: SignalTable, found: nat)

  /** The signal table and the signal count after processing `symbols` in order. */
  function RunDetection(signals: SignalTable, t: StockTable, symbols: seq<string>, dates: seq<int>,
                        now: int, lookup: string -> StockInfo): DetectionRun
    decreases |symbols|
  {
    if symbols == [] then DetectionRun(signals, 0)
    else
      var prev := RunDetection(signals, t, symbols[..|symbols| - 1], dates, now, lookup);
      var symbol := symbols[|symbols| - 1];
      DetectionRun(SymbolSignals(prev.signals, t, symbol, dates, now, lookup(symbol)),
                   prev.found + if EvaluateSymbol(t, symbol, dates).HitOn? then 1 else 0)
  }

  /** The signal table after processing one symbol: the hit, if any, is saved. */
  function SymbolSignals(signals: SignalTable, t: StockTable, symbol: string, dates: seq<int>,
                         now: int, info: StockInfo): SignalTable
  {
    match EvaluateSymbol(t, symbol, dates)
    case HitOn(date, hit) => UpsertSignal(signals, BuildSignal(symbol, date, hit, now, info))
    case _ => signals
  }

  /** The keys of the signals a run emits. */
  function FoundKeys(t: StockTable, symbols: seq<string>, dates: seq<int>): set<SignalKey>
    decreases |symbols|
  {
    if symbols == [] then {}
    else
      var symbol := symbols[|symbols| - 1];
      FoundKeys(t, symbols[..|symbols| - 1], dates)
        + match EvaluateSymbol(t, symbol, dates)
          case HitOn(date, _) => {SignalKey(symbol, date, SignalType)}
          case _ => {}
  }

  /** A run adds exactly the found keys, keeps every other row, emits at most one
      signal per symbol, and only signals of its own type on its target dates. */
  lemma {:induction false} RunDetectionFacts(signals: SignalTable, t: StockTable, symbols: seq<string>, dates: seq<int>,
                                             now: int, lookup: string -> StockInfo)
    ensures var r := RunDetection(signals, t, symbols, dates, now, lookup);
      && r.signals.Keys == signals.Keys + FoundKeys(t, symbols, dates)
      && (forall k :: k in signals && k !in FoundKeys(t, symbols, dates) ==> r.signals[k] == signals[k])
      && r.found <= |symbols|
    ensures forall k :: k in FoundKeys(t, symbols, dates) ==>
      k.signalType == SignalType && k.signalDate in dates && k.symbol in symbols
    decreases |symbols|
  {
    if symbols != [] {
      var init := symbols[..|symbols| - 1];
      var symbol := symbols[|symbols| - 1];
      RunDetectionFacts(signals, t, init, dates, now, lookup);
      forall k | k in FoundKeys(t, init, dates) ensures k.symbol in symbols {
        assert k.symbol in init;
      }
    }
  }

  /** The found keys are the hits of the symbols, one per symbol: a key is
      found exactly when its symbol is run and hits on its date. */
  lemma {:induction false} FoundKeysFacts(t: StockTable, symbols: seq<string>, dates: seq<int>)
    ensures forall k :: k in FoundKeys(t, symbols, dates) <==>
      && k.signalType == SignalType && k.symbol in symbols
      && EvaluateSymbol(t, k.symbol, dates).HitOn? && EvaluateSymbol(t, k.symbol, dates).date == k.signalDate
    ensures forall k1, k2 :: (k1 in FoundKeys(t, symbols, dates) && k2 in FoundKeys(t, symbols, dates)
      && k1.symbol == k2.symbol) ==> k1 == k2
    decreases |symbols|
  {
    if symbols != [] {
      var init := symbols[..|symbols| - 1];
      FoundKeysFacts(t, init, dates);
      assert symbols == init + [symbols[|symbols| - 1]];
    }
  }

  /** The row a run leaves at the key of a hit: a new key holds the signal
      built from the hit; an existing key keeps its first snapshot and takes
      the new measures. */
  predicate FoundRow(before: SignalTable, after: SignalTable, k: SignalKey, v: SymbolOutcome, now: int, info: StockInfo) {
    && k in after && v.HitOn?
    && var s := BuildSignal(k.symbol, k.signalDate, v.hit, now, info);
       && (k !in before ==> after[k] == s)
       && (k in before ==> SameSnapshot(after[k], before[k]) && SameMeasures(after[k], s))
  }

  /** Saving the hit's signal over a table in which its key is either untouched
      or already holds the row of that hit leaves the row of that hit. */
  lemma UpsertedRow(before: SignalTable, prev: SignalTable, k: SignalKey, v: SymbolOutcome, now: int, info: StockInfo, found: bool)
    requires v.HitOn? && k == SignalKey(k.symbol, v.date, SignalType)
    requires found ==> FoundRow(before, prev, k, v, now, info)
    requires !found ==> (k in prev <==> k in before) && (k in before ==> prev[k] == before[k])
    ensures FoundRow(before, UpsertSignal(prev, BuildSignal(k.symbol, k.signalDate, v.hit, now, info)), k, v, now, info)
  {
    var s := BuildSignal(k.symbol, k.signalDate, v.hit, now, info);
    assert KeyOf(s) == k;
    var after := UpsertSignal(prev, s);
    if k in prev && k !in before {
      ColumnGroupsCoverRow(after[k], s);
    }
  }

  /** Every found key holds the row of its hit once the run is over. */
  lemma {:induction false} RunDetectionRows(signals: SignalTable, t: StockTable, symbols: seq<string>, dates: seq<int>,
                                            now: int, lookup: string -> StockInfo)
    ensures var r := RunDetection(signals, t, symbols, dates, now, lookup);
      forall k :: k in FoundKeys(t, symbols, dates) ==>
        FoundRow(signals, r.signals, k, EvaluateSymbol(t, k.symbol, dates), now, lookup(k.symbol))
    decreases |symbols|
  {
    if symbols != [] {
      var init := symbols[..|symbols| - 1];
      var symbol := symbols[|symbols| - 1];
      var prev := RunDetection(signals, t, init, dates, now, lookup);
      var r := RunDetection(signals, t, symbols, dates, now, lookup);
      RunDetectionRows(signals, t, init, dates, now, lookup);
      RunDetectionFacts(signals, t, init, dates, now, lookup);
      FoundKeysFacts(t, init, dates);
      var w := EvaluateSymbol(t, symbol, dates);
      if w.HitOn? {
        var key := SignalKey(symbol, w.date, SignalType);
        var s := BuildSignal(symbol, w.date, w.hit, now, lookup(symbol));
        assert KeyOf(s) == key;
        assert r.signals == UpsertSignal(prev.signals, s);
        assert FoundKeys(t, symbols, dates) == FoundKeys(t, init, dates) + {key};
        forall k | k in FoundKeys(t, symbols, dates)
          ensures FoundRow(signals, r.signals, k, EvaluateSymbol(t, k.symbol, dates), now, lookup(k.symbol))
        {
          if k == key {
            UpsertedRow(signals, prev.signals, key, w, now, lookup(symbol), key in FoundKeys(t, init, dates));
          } else {
            assert k in FoundKeys(t, init, dates);
            assert k.symbol != symbol;
            assert r.signals[k] == prev.signals[k];
          }
        }
      } else {
        assert r.signals == prev.signals;
        assert FoundKeys(t, symbols, dates) == FoundKeys(t, init, dates);
      }
    }
  }

  /** Running the detection again over an unchanged bar history creates no new row. */
  lemma RerunAddsNoKeys(signals: SignalTable, t: StockTable, symbols: seq<string>, dates: seq<int>,
                        now: int, later: int, lookup: string -> StockInfo)
    ensures var first := RunDetection(signals, t, symbols, dates, now, lookup).signals;
      RunDetection(first, t, symbols, dates, later, lookup).signals.Keys == first.Keys
  {
    var first := RunDetection(signals, t, symbols, dates, now, lookup).signals;
    RunDetectionFacts(signals, t, symbols, dates, now, lookup);
    RunDetectionFacts(first, t, symbols, dates, later, lookup);
  }

  /** symbols[:n] */
  function Take(symbols: seq<string>, n: nat): (r: seq<string>)
    ensures |r| == Min(n, |symbols|) && r == symbols[..|r|]
  {
    if |symbols| <= n then symbols else symbols[..n]
  }

  /** The two target dates: the latest business day and the business day before it. */
  ghost function TargetDatesIn(holidays: set<int>, today: int): seq<int> {
    var latest := LatestBusinessDayIn(holidays, today);
    [latest, PrevBusinessDay(holidays, latest)]
  }

  class HammerSignalDetector {
    const businessDays: BusinessDayCalculator

    constructor (businessDays: BusinessDayCalculator)
      ensures this.businessDays == businessDays
    {
      this.businessDays := businessDays;
    }

    /** get_target_dates: the latest business day up to `today`, then the nearest
        business day before it. None: the holiday reload raised. */
    method TargetDates(today: int, csv: HolidayCsv) returns (r: Option<seq<int>>)
      modifies businessDays
      ensures r.None? <==> NeedsReload(old(businessDays.holidays), old(businessDays.currentYear), YearOf(today)) && csv.DownloadFailed?
      ensures r.Some? ==> r.value == TargetDatesIn(businessDays.holidays, today)
      ensures var reload := NeedsReload(old(businessDays.holidays), old(businessDays.currentYear), YearOf(today));
        if reload && csv.DownloadFailed? then
          businessDays.holidays == old(businessDays.holidays) && businessDays.currentYear == old(businessDays.currentYear)
        else
          && businessDays.holidays == (if reload then LoadedHolidays(csv, YearOf(today)).value else old(businessDays.holidays))
          && businessDays.currentYear == (if reload then YearOf(today) else old(businessDays.currentYear))
      ensures r.Some? ==> r.value[1] < r.value[0] <= today && IsBusinessDayIn(businessDays.holidays, r.value[1])
    {
      var latest := businessDays.LatestBusinessDay(today, csv);
      if latest.None? {
        return None;
      }
      LatestWithinFacts(businessDays.holidays, today, MaxDaysBack);
      var prev := latest.value - 1;
      while !IsBusinessDayIn(businessDays.holidays, prev)
        invariant PrevBusinessDay(businessDays.holidays, latest.value) <= prev < latest.value
        invariant forall k :: prev < k < latest.value ==> !IsBusinessDayIn(businessDays.holidays, k)
        decreases prev - PrevBusinessDay(businessDays.holidays, latest.value)
      {
        prev := prev - 1;
      }
      PrevBusinessDayUnique(businessDays.holidays, latest.value, prev);
      return Some([latest.value, prev]);
    }

    /** save_signal */
    method SaveSignal(db: Database, s: Signal)
      modifies db`signals
      ensures db.signals == UpsertSignal(old(db.signals), s)
    {
      db.signals := UpsertSignal(db.signals, s);
    }

    /** The body of the symbol loop of detect_signals: the first signal of the
        symbol, if any, is saved. */
    method DetectForSymbol(db: Database, symbol: string, dates: seq<int>, now: int, info: StockInfo) returns (found: bool)
      modifies db`signals
      ensures found == EvaluateSymbol(db.stocks, symbol, dates).HitOn?
      ensures db.signals == SymbolSignals(old(db.signals), db.stocks, symbol, dates, now, info)
    {
      var outcome := EvaluateDates(db.stocks, symbol, dates);
      if outcome.HitOn? {
        SaveSignal(db, BuildSignal(symbol, outcome.date, outcome.hit, now, info));
      }
      found := outcome.HitOn?;
    }

    /** The symbol loop of detect_signals: every symbol in turn against the same target dates. */
    method DetectAll(db: Database, selected: seq<string>, dates: seq<int>, now: int, lookup: string -> StockInfo)
      returns (signalsFound: nat)
      modifies db`signals
      ensures DetectionRun(db.signals, signalsFound) == RunDetection(old(db.signals), db.stocks, selected, dates, now, lookup)
    {
      signalsFound := 0;
      for i := 0 to |selected|
        invariant DetectionRun(db.signals, signalsFound) == RunDetection(old(db.signals), db.stocks, selected[..i], dates, now, lookup)
      {
        assert selected[..i + 1][..i] == selected[..i];
        assert selected[..i + 1][i] == selected[i];
        var found := DetectForSymbol(db, selected[i], dates, now, lookup(selected[i]));
        if found {
          signalsFound := signalsFound + 1;
        }
      }
      assert selected[..|selected|] == selected;
    }

    /** detect_signals: the number of signals found, or None when the target
        dates could not be computed. `symbols` is the ordered symbol list of the
        bar table, `now` the clock and `lookup` the master-table query. */
    method DetectSignals(db: Database, symbols: seq<string>, testMode: bool, today: int, csv: HolidayCsv,
                         now: int, lookup: string -> StockInfo) returns (r: Option<nat>)
      modifies businessDays, db`signals
      ensures r.None? <==> NeedsReload(old(businessDays.holidays), old(businessDays.currentYear), YearOf(today)) && csv.DownloadFailed?
      ensures r.None? ==> db.signals == old(db.signals)
      ensures var reload := NeedsReload(old(businessDays.holidays), old(businessDays.currentYear), YearOf(today));
        if reload && csv.DownloadFailed? then
          businessDays.holidays == old(businessDays.holidays) && businessDays.currentYear == old(businessDays.currentYear)
        else
          && businessDays.holidays == (if reload then LoadedHolidays(csv, YearOf(today)).value else old(businessDays.holidays))
          && businessDays.currentYear == (if reload then YearOf(today) else old(businessDays.currentYear))
      ensures r.Some? ==>
        var run := RunDetection(old(db.signals), db.stocks, if testMode then Take(symbols, TestModeSymbols) else symbols,
                                TargetDatesIn(businessDays.holidays, today), now, lookup);
        db.signals == run.signals && r.value == run.found
    {
      var targetDates := TargetDates(today, csv);
      if targetDates.None? {
        return None;
      }
      var selected := if testMode then Take(symbols, TestModeSymbols) else symbols;
      var signalsFound := DetectAll(db, selected, targetDates.value, now, lookup);
      return Some(signalsFound);
    }
  }

  // ---------------------------------------------------------------------------
  // The decline-length boundary

  /** A hammer bar: open 68, high 76, low 60, close 75. */
  function HammerBar(date: int): Bar {
    Bar(date, 68.0, 76.0, 60.0, 75.0, 1000)
  }

  function Flat(date: int, close: real): Bar {
    Bar(date, close, close, close, close, 1000)
  }

  /** Closes 100, 95, 90, 85 (three drops) before the hammer: no signal. */
  lemma ThreeDropsNoSignal()
    ensures DecideDate([Flat(1, 100.0), Flat(2, 95.0), Flat(3, 90.0), Flat(4, 85.0), HammerBar(5)], 5).NoSignal?
  {
  }

  /** Closes 100, 95, 90, 85, 80 (four drops) before the hammer: a signal with four
      decline days starting at the first bar, a 20 percent decline. */
  lemma FourDropsSignal()
    ensures var d := DecideDate([Flat(1, 100.0), Flat(2, 95.0), Flat(3, 90.0), Flat(4, 85.0), Flat(5, 80.0), HammerBar(6)], 6);
      d.Emit? && d.hit.decline.declineDays == 4 && d.hit.decline.declineStartDate == 1
      && d.hit.decline.totalDeclinePct == 20.0
  {
    var w := [Flat(1, 100.0), Flat(2, 95.0), Flat(3, 90.0), Flat(4, 85.0), Flat(5, 80.0), HammerBar(6)];
    assert DeclineRun(w, 0) == 0;
    assert DeclineRun(w, 4) == 4;
  }
}
