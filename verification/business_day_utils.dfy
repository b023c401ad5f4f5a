/**
 * Business-day calendar of the Tokyo market: a day is a business day when it
 * is a weekday and not a national holiday. Holidays come from the Cabinet
 * Office CSV, reduced to the dates of one requested year.
 *
 * Dates are day numbers: day 0 is 1970-01-01, a Thursday.
 */
module Calendar {
  import opened Util

  /** How far back the search for the latest business day looks. */
  const MaxDaysBack := 10

  /** Day of the week as Python's date.weekday(): Monday = 0 ... Sunday = 6. */
  function Weekday(d: int): (w: int)
    ensures 0 <= w < 7
  {
    (d + 3) % 7
  }

  /** Day 0, 1970-01-01, was a Thursday and day 20094, 2025-01-06, a Monday;
      each day moves the weekday on by one. */
  lemma WeekdayAnchor(d: int)
    ensures Weekday(0) == 3 && Weekday(20094) == 0
    ensures Weekday(d + 1) == (Weekday(d) + 1) % 7
  {
  }

  /** Calendar year of a day number (proleptic Gregorian, civil-from-days). */
  function YearOf(d: int): int {
    var z := d + 719468;
    var era := z / 146097;
    var doe := z - era * 146097;
    var yoe := (doe - doe / 1460 + doe / 36524 - doe / 146096) / 365;
    var doy := doe - (365 * yoe + yoe / 4 - yoe / 100);
    var mp := (5 * doy + 2) / 153;
    // mp counts months from March; 10 and 11 are January and February of the next year
    if mp >= 10 then yoe + era * 400 + 1 else yoe + era * 400
  }

  predicate IsBusinessDayIn(holidays: set<int>, d: int) {
    Weekday(d) != 5 && Weekday(d) != 6 && d !in holidays
  }

  lemma WeekdayNext(d: int)
    ensures Weekday(d + 1) == if Weekday(d) == 6 then 0 else Weekday(d) + 1
  {
  }

  /** Of three consecutive days at least one is a weekday. */
  lemma {:induction false} WeekdayAmongThree(d: int)
    ensures Weekday(d) < 5 || Weekday(d - 1) < 5 || Weekday(d - 2) < 5
  {
    WeekdayNext(d - 1);
    WeekdayNext(d - 2);
  }

  /** With no holiday in [d-2, d], one of those three days is a business day. */
  lemma {:induction false} BusinessDayAmongThree(holidays: set<int>, d: int)
    requires d !in holidays && d - 1 !in holidays && d - 2 !in holidays
    ensures IsBusinessDayIn(holidays, d) || IsBusinessDayIn(holidays, d - 1) || IsBusinessDayIn(holidays, d - 2)
  {
    WeekdayAmongThree(d);
  }

  /** Below any day there is a business day: the holiday set is finite. */
  lemma {:induction false} BusinessDayBefore(holidays: set<int>, x: int) returns (d: int)
    ensures d < x && IsBusinessDayIn(holidays, d)
  {
    var m := MinOf(holidays + {x});
    assert m <= x;
    assert m - 1 !in holidays && m - 2 !in holidays && m - 3 !in holidays;
    BusinessDayAmongThree(holidays, m - 1);
    if IsBusinessDayIn(holidays, m - 1) {
      d := m - 1;
    } else if IsBusinessDayIn(holidays, m - 2) {
      d := m - 2;
    } else {
      d := m - 3;
    }
  }

  /** The latest business day strictly before `d`, found below `d` among the
      days from some business day on. */
  lemma {:induction false} PrevBusinessDayWitness(holidays: set<int>, d: int) returns (p: int)
    ensures p < d && IsBusinessDayIn(holidays, p)
    ensures forall k :: p < k < d ==> !IsBusinessDayIn(holidays, k)
  {
    var b := BusinessDayBefore(holidays, d);
    var candidates := set k | b <= k < d && IsBusinessDayIn(holidays, k);
    assert b in candidates;
    p := MaxOf(candidates);
    forall k | p < k < d ensures !IsBusinessDayIn(holidays, k) {
      assert k !in candidates;
    }
  }

  /** There is a latest business day strictly before any day. */
  lemma PrevBusinessDayExists(holidays: set<int>, d: int)
    ensures exists p :: p < d && IsBusinessDayIn(holidays, p) && forall k :: p < k < d ==> !IsBusinessDayIn(holidays, k)
  {
    var p := PrevBusinessDayWitness(holidays, d);
  }

  /** The nearest business day strictly before `d`. */
  ghost function PrevBusinessDay(holidays: set<int>, d: int): (p: int)
    ensures p < d && IsBusinessDayIn(holidays, p)
    ensures forall k :: p < k < d ==> !IsBusinessDayIn(holidays, k)
  {
    PrevBusinessDayExists(holidays, d);
    var p :| p < d && IsBusinessDayIn(holidays, p) && forall k :: p < k < d ==> !IsBusinessDayIn(holidays, k); p
  }

  lemma PrevBusinessDayUnique(holidays: set<int>, d: int, p: int)
    requires p < d && IsBusinessDayIn(holidays, p)
    requires forall k :: p < k < d ==> !IsBusinessDayIn(holidays, k)
    ensures p == PrevBusinessDay(holidays, d)
  {
    var q := PrevBusinessDay(holidays, d);
    assert !(p < q) && !(q < p);
  }

  // ---------------------------------------------------------------------------
  // Holiday table

  /** What reading the holiday CSV yields: the download raised, the file could
      not be decoded or read, or the parsed first column (None where a cell is
      not a date string). */
  datatype HolidayCsv = DownloadFailed | Unreadable | Table(entries: seq<Option<int>>)

  /** The listed dates that fall in `year`. */
  function HolidaysOfYear(entries: seq<Option<int>>, year: int): set<int>
    decreases |entries|
  {
    if entries == [] then {}
    else
      var e := entries[|entries| - 1];
      HolidaysOfYear(entries[..|entries| - 1], year) + if e.Some? && YearOf(e.value) == year then {e.value} else {}
  }

  lemma {:induction false} HolidaysOfYearMembers(entries: seq<Option<int>>, year: int, d: int)
    ensures d in HolidaysOfYear(entries, year) <==> Some(d) in entries && YearOf(d) == year
    decreases |entries|
  {
    if entries != [] {
      var init := entries[..|entries| - 1];
      HolidaysOfYearMembers(init, year, d);
      assert entries == init + [entries[|entries| - 1]];
    }
  }

  /** Result of load_holidays: None when the download raised (the exception
      propagates), the empty set when the file cannot be read, else the
      requested year's dates. */
  function LoadedHolidays(csv: HolidayCsv, year: int): (r: Option<set<int>>)
    ensures r.None? <==> csv.DownloadFailed?
    ensures csv.Unreadable? ==> r == Some({})
    ensures csv.Table? ==> r.Some? && forall d :: d in r.value <==> Some(d) in csv.entries && YearOf(d) == year
  {
    match csv
    case DownloadFailed => None
    case Unreadable => Some({})
    case Table(entries) =>
      assert forall d :: d in HolidaysOfYear(entries, year) <==> Some(d) in entries && YearOf(d) == year by {
        forall d ensures d in HolidaysOfYear(entries, year) <==> Some(d) in entries && YearOf(d) == year {
          HolidaysOfYearMembers(entries, year, d);
        }
      }
      Some(HolidaysOfYear(entries, year))
  }

  /** get_latest_business_day reloads the holidays when the target's year is not the
      loaded one or when no holiday is loaded. */
  predicate NeedsReload(holidays: set<int>, currentYear: int, year: int) {
    year != currentYear || holidays == {}
  }

  // ---------------------------------------------------------------------------
  // Latest business day

  /** First business day among check, check-1, ..., check-(budget-1). */
  function LatestWithin(holidays: set<int>, check: int, budget: nat): Option<int>
    decreases budget
  {
    if budget == 0 then None
    else if IsBusinessDayIn(holidays, check) then Some(check)
    else LatestWithin(holidays, check - 1, budget - 1)
  }

  lemma {:induction false} LatestWithinFacts(holidays: set<int>, check: int, budget: nat)
    ensures var r := LatestWithin(holidays, check, budget);
      (r.Some? ==> check - budget < r.value <= check && IsBusinessDayIn(holidays, r.value)
                   && forall k :: r.value < k <= check ==> !IsBusinessDayIn(holidays, k))
      && (r.None? ==> forall k :: check - budget < k <= check ==> !IsBusinessDayIn(holidays, k))
    decreases budget
  {
    if budget > 0 && !IsBusinessDayIn(holidays, check) {
      LatestWithinFacts(holidays, check - 1, budget - 1);
    }
  }

  /** The day get_latest_business_day returns for a fixed holiday set. */
  function LatestBusinessDayIn(holidays: set<int>, target: int): int {
    LatestWithin(holidays, target, MaxDaysBack).GetOr(target)
  }

  /** The result is the first business day among target, target-1, ..., target-9;
      when there is none it is the target itself. */
  lemma LatestBusinessDayFacts(holidays: set<int>, target: int)
    ensures var r := LatestBusinessDayIn(holidays, target);
      (exists k :: target - MaxDaysBack < k <= target && IsBusinessDayIn(holidays, k)) ==>
        target - MaxDaysBack < r <= target && IsBusinessDayIn(holidays, r)
        && forall k :: r < k <= target ==> !IsBusinessDayIn(holidays, k)
    ensures (forall k :: target - MaxDaysBack < k <= target ==> !IsBusinessDayIn(holidays, k)) ==>
      LatestBusinessDayIn(holidays, target) == target
  {
    LatestWithinFacts(holidays, target, MaxDaysBack);
  }

  /** A business day is its own latest business day, so applying the search
      twice equals applying it once. */
  lemma LatestBusinessDayIdempotent(holidays: set<int>, target: int)
    ensures IsBusinessDayIn(holidays, target) ==> LatestBusinessDayIn(holidays, target) == target
    ensures LatestBusinessDayIn(holidays, LatestBusinessDayIn(holidays, target)) == LatestBusinessDayIn(holidays, target)
  {
    LatestWithinFacts(holidays, target, MaxDaysBack);
    var r := LatestBusinessDayIn(holidays, target);
    if LatestWithin(holidays, target, MaxDaysBack).Some? {
      assert IsBusinessDayIn(holidays, r);
    }
  }

  /** Without holidays near the target the search goes back at most two days
      (only Saturday and Sunday are skipped). */
  lemma LatestBusinessDayWithoutHolidays(holidays: set<int>, target: int)
    requires target !in holidays && target - 1 !in holidays && target - 2 !in holidays
    ensures target - 2 <= LatestBusinessDayIn(holidays, target) <= target
    ensures IsBusinessDayIn(holidays, LatestBusinessDayIn(holidays, target))
  {
    BusinessDayAmongThree(holidays, target);
    LatestWithinFacts(holidays, target, MaxDaysBack);
  }

  // ---------------------------------------------------------------------------
  // Business days in an interval

  /** The business days of [start, end] in ascending order. */
  function BusinessDaysIn(holidays: set<int>, start: int, end: int): seq<int>
    decreases if end < start then 0 else end - start + 1
  {
    if end < start then []
    else BusinessDaysIn(holidays, start, end - 1) + if IsBusinessDayIn(holidays, end) then [end] else []
  }

  /** Exactly the business days of [start, end], strictly ascending, and none
      when start > end. */
  lemma {:induction false} BusinessDaysInFacts(holidays: set<int>, start: int, end: int)
    ensures var r := BusinessDaysIn(holidays, start, end);
      (forall d :: d in r <==> start <= d <= end && IsBusinessDayIn(holidays, d))
      && (forall i, j :: 0 <= i < j < |r| ==> r[i] < r[j])
      && (end < start ==> r == [])
    decreases if end < start then 0 else end - start + 1
  {
    if start <= end {
      BusinessDaysInFacts(holidays, start, end - 1);
      var prefix := BusinessDaysIn(holidays, start, end - 1);
      var r := BusinessDaysIn(holidays, start, end);
      forall i, j | 0 <= i < j < |r| ensures r[i] < r[j] {
        if j >= |prefix| {
          assert r[j] == end;
          assert r[i] == prefix[i] && prefix[i] in prefix;
        } else {
          assert r[i] == prefix[i] && r[j] == prefix[j];
        }
      }
    }
  }

  /** The order in which get_business_days_until visits {year(start), year(end)}:
      CPython's iteration order of that set, given as `endYearFirst`. */
  function YearOrder(start: int, end: int, endYearFirst: bool): (years: seq<int>)
    ensures forall y :: y in years <==> y == YearOf(start) || y == YearOf(end)
  {
    var ys := YearOf(start);
    var ye := YearOf(end);
    if ys == ye then [ys] else if endYearFirst then [ye, ys] else [ys, ye]
  }

  /** The holiday set after a sequence of reloads, and whether one of them raised. */
  datatype LoadState = LoadState(holidays: set<int>, raised: bool)

  /** The reloads of get_business_days_until: each reload replaces the set
      (the current year is not updated by this method). */
  function HolidaysAfterLoads(holidays: set<int>, currentYear: int, years: seq<int>, csv: HolidayCsv): LoadState
    decreases |years|
  {
    if years == [] then LoadState(holidays, false)
    else if NeedsReload(holidays, currentYear, years[0]) then
      match LoadedHolidays(csv, years[0])
      case None => LoadState(holidays, true)
      case Some(loaded) => HolidaysAfterLoads(loaded, currentYear, years[1..], csv)
    else HolidaysAfterLoads(holidays, currentYear, years[1..], csv)
  }

  /** The holiday calculator: the loaded holiday set and the year it was loaded for. */
  class BusinessDayCalculator {
    var holidays: set<int>
    var currentYear: int

    /** `thisYear` is the year of the clock at construction. */
    constructor (thisYear: int)
      ensures holidays == {} && currentYear == thisYear
    {
      holidays := {};
      currentYear := thisYear;
    }

    /** load_holidays: replaces the holiday set with the year's dates, or with the
        empty set when the file cannot be read; a failed download raises (None)
        and leaves the set as it was. */
    method LoadHolidays(year: int, csv: HolidayCsv) returns (r: Option<set<int>>)
      modifies this`holidays
      ensures r == LoadedHolidays(csv, year)
      ensures holidays == if r.Some? then r.value else old(holidays)
    {
      match csv {
        case DownloadFailed =>
          r := None;
        case Unreadable =>
          holidays := {};
          r := Some({});
        case Table(entries) =>
          var found: set<int> := {};
          for i := 0 to |entries|
            invariant found == HolidaysOfYear(entries[..i], year)
          {
            var e := entries[i];
            assert entries[..i + 1][..i] == entries[..i];
            if e.Some? && YearOf(e.value) == year {
              found := found + {e.value};
            }
          }
          assert entries[..|entries|] == entries;
          holidays := found;
          r := Some(found);
      }
    }

    /** get_latest_business_day: reloads the holidays if needed, then returns
        the first business day among target, target-1, ..., target-9, or the
        target itself when there is none. None: the reload raised. */
    method LatestBusinessDay(target: int, csv: HolidayCsv) returns (r: Option<int>)
      modifies this
      ensures var reload := NeedsReload(old(holidays), old(currentYear), YearOf(target));
        if reload && csv.DownloadFailed? then
          r.None? && holidays == old(holidays) && currentYear == old(currentYear)
        else
          holidays == (if reload then LoadedHolidays(csv, YearOf(target)).value else old(holidays))
          && currentYear == (if reload then YearOf(target) else old(currentYear))
          && r == Some(LatestBusinessDayIn(holidays, target))
    {
      if YearOf(target) != currentYear || holidays == {} {
        var loaded := LoadHolidays(YearOf(target), csv);
        if loaded.None? {
          return None;
        }
        currentYear := YearOf(target);
      }
      var d := SearchLatest(target);
      r := Some(d);
    }

    /** The search loop of get_latest_business_day over the loaded holidays. */
    method SearchLatest(target: int) returns (d: int)
      ensures d == LatestBusinessDayIn(holidays, target)
    {
      var check := target;
      var i := 0;
      while i < MaxDaysBack
        invariant 0 <= i <= MaxDaysBack && check == target - i
        invariant LatestWithin(holidays, target, MaxDaysBack) == LatestWithin(holidays, check, MaxDaysBack - i)
      {
        if IsBusinessDayIn(holidays, check) {
          return check;
        }
        check := check - 1;
        i := i + 1;
      }
      return target;
    }

    /** get_business_days_until: reloads the holidays for the years of start and
        end, then lists the business days of [start, end]. None: a reload raised. */
    method BusinessDaysUntil(start: int, end: int, endYearFirst: bool, csv: HolidayCsv) returns (r: Option<seq<int>>)
      modifies this`holidays
      ensures var after := HolidaysAfterLoads(old(holidays), currentYear, YearOrder(start, end, endYearFirst), csv);
        holidays == after.holidays
        && r == if after.raised then None else Some(BusinessDaysIn(holidays, start, end))
    {
      var years := YearOrder(start, end, endYearFirst);
      var j := 0;
      while j < |years|
        invariant 0 <= j <= |years|
        invariant HolidaysAfterLoads(old(holidays), currentYear, years, csv)
               == HolidaysAfterLoads(holidays, currentYear, years[j..], csv)
      {
        assert years[j..][1..] == years[j + 1..];
        if years[j] != currentYear || holidays == {} {
          var loaded := LoadHolidays(years[j], csv);
          if loaded.None? {
            return None;
          }
        }
        j := j + 1;
      }
      var days := ListBusinessDays(start, end);
      return Some(days);
    }

    /** The listing loop of get_business_days_until over the loaded holidays. */
    method ListBusinessDays(start: int, end: int) returns (days: seq<int>)
      ensures days == BusinessDaysIn(holidays, start, end)
    {
      days := [];
      var current := start;
      while current <= end
        invariant start <= current <= Max(end + 1, start)
        invariant days == BusinessDaysIn(holidays, start, current - 1)
        decreases end - current
      {
        if IsBusinessDayIn(holidays, current) {
          days := days + [current];
        }
        current := current + 1;
      }
    }
  }

  // ---------------------------------------------------------------------------
  // Across a year boundary only one year's holidays remain loaded

  /** 2025-11-03 (Culture Day), a Monday. */
  const CultureDay2025 := 20395
  /** 2026-01-01 (New Year's Day), a Thursday. */
  const NewYear2026 := 20454

  lemma CultureDayYear()
    ensures YearOf(CultureDay2025) == 2025
  {
    assert 739863 / 146097 == 5;
    assert (9378 - 9378 / 1460 + 9378 / 36524 - 9378 / 146096) / 365 == 25;
    assert (5 * 247 + 2) / 153 == 8;
  }

  lemma NewYearYear()
    ensures YearOf(NewYear2026) == 2026
  {
    assert 739922 / 146097 == 5;
    assert (9437 - 9437 / 1460 + 9437 / 36524 - 9437 / 146096) / 365 == 25;
    assert (5 * 306 + 2) / 153 == 10;
  }

  /** As written: listing the business days from Culture Day 2025 to New Year's
      Day 2026 (years visited 2025 then 2026, as CPython iterates {2025, 2026})
      counts Culture Day as a business day although the table lists it, because
      loading 2026 replaced the 2025 holidays. */
  lemma CrossYearHolidayIgnored()
    ensures var csv := Table([Some(CultureDay2025), Some(NewYear2026)]);
      var after := HolidaysAfterLoads({}, 2025, YearOrder(CultureDay2025, NewYear2026, false), csv);
      && !after.raised
      && CultureDay2025 in HolidaysOfYear(csv.entries, YearOf(CultureDay2025))
      && CultureDay2025 in BusinessDaysIn(after.holidays, CultureDay2025, NewYear2026)
  {
    var csv := Table([Some(CultureDay2025), Some(NewYear2026)]);
    CultureDayYear();
    NewYearYear();
    HolidaysOfYearMembers(csv.entries, 2025, CultureDay2025);
    HolidaysOfYearMembers(csv.entries, 2026, CultureDay2025);
    var after := HolidaysAfterLoads({}, 2025, [2025, 2026], csv);
    assert CultureDay2025 !in after.holidays;
    BusinessDaysInFacts(after.holidays, CultureDay2025, NewYear2026);
  }

  /** Corrected: the business days of [start, end] with the holidays of both
      the start year and the end year excluded. None: the download raised. */
  function BusinessDaysAcrossYears(csv: HolidayCsv, start: int, end: int): (r: Option<seq<int>>)
    ensures r.None? <==> csv.DownloadFailed?
    ensures r.Some? ==> forall d :: d in r.value <==>
      start <= d <= end && Weekday(d) < 5
      && (csv.Table? ==> d !in HolidaysOfYear(csv.entries, YearOf(start)) && d !in HolidaysOfYear(csv.entries, YearOf(end)))
    ensures r.Some? ==> forall i, j :: 0 <= i < j < |r.value| ==> r.value[i] < r.value[j]
  {
    match LoadedHolidays(csv, YearOf(start))
    case None => None
    case Some(first) =>
      var merged := first + LoadedHolidays(csv, YearOf(end)).value;
      BusinessDaysInFacts(merged, start, end);
      Some(BusinessDaysIn(merged, start, end))
  }
}
