/**
 * `fetch_multiple_hours` and `fetch_multiple_days`: walk an inclusive range
 * of hours (and of days, each with the same hour bounds), fetch one page per
 * (date, hour) and merge every page into one channel list.
 *
 * The listing fetch itself (cache, network, retries) is the parameter
 * `pages`: what `fetch_listings` returns or raises for a date string and an
 * hour.  Each method also returns the (date, hour) pairs it asked for, in
 * order, so that what is fetched can be stated as well as what comes back.
 */
module RangeFetch {
  import opened Wrappers
  import opened CivilTime
  import opened TimeText
  import opened Listings
  import opened Merge

  /** `fetch_listings` for a date string and an hour, all other arguments fixed. */
  type Pages = (string, int) -> Result<seq<Channel>, Err>

  type Request = (string, int)

  /** The `except ValueError` clause: only a cache miss, only in cache-only mode, is skipped. */
  predicate Skipped(e: Err, cacheOnly: bool) {
    cacheOnly && SaysNoCachedData(e)
  }

  /**
   * The `try` block around one fetch in both functions: merge what came back,
   * skip a cache miss in cache-only mode, raise anything else.
   */
  function AddPage(m: Merged, fetched: Result<seq<Channel>, Err>, cacheOnly: bool): (r: Result<Merged, Err>)
    requires Valid(m)
    ensures r.Success? ==> Valid(r.value)
  {
    match fetched
    case Failure(e) => if Skipped(e, cacheOnly) then Success(m) else Failure(e)
    case Success(batch) => MergeBatch(m, batch)
  }

  method AddPageInto(m: Merged, fetched: Result<seq<Channel>, Err>, cacheOnly: bool) returns (r: Result<Merged, Err>)
    requires Valid(m)
    ensures r == AddPage(m, fetched, cacheOnly)
  {
    if fetched.Success? {
      r := MergeInto(m, fetched.value);
    } else if Skipped(fetched.error, cacheOnly) {
      r := Success(m);
    } else {
      r := Failure(fetched.error);
    }
  }

  // ---------------------------------------------------------------------
  // Hours of one day.

  /** `channels_dict` after the hours `startHour .. h-1` of `date`. */
  function HoursFold(pages: Pages, date: string, startHour: int, h: int, cacheOnly: bool): (r: Result<Merged, Err>)
    ensures r.Success? ==> Valid(r.value)
    decreases h - startHour
  {
    if h <= startHour then Success(Empty)
    else match HoursFold(pages, date, startHour, h - 1, cacheOnly)
      case Failure(e) => Failure(e)
      case Success(m) => AddPage(m, pages(date, h - 1), cacheOnly)
  }

  /** The pages asked for while folding the hours `startHour .. h-1`. */
  function HoursAsked(pages: Pages, date: string, startHour: int, h: int, cacheOnly: bool): seq<Request>
    decreases h - startHour
  {
    if h <= startHour then []
    else if HoursFold(pages, date, startHour, h - 1, cacheOnly).Failure? then HoursAsked(pages, date, startHour, h - 1, cacheOnly)
    else HoursAsked(pages, date, startHour, h - 1, cacheOnly) + [(date, h - 1)]
  }

  /**
   * What `fetch_multiple_hours` returns or raises: on success, the values of
   * a dictionary keyed by `pa_id`, so one channel per `pa_id`.
   */
  function FetchHours(pages: Pages, date: string, startHour: int, endHour: int, cacheOnly: bool): (r: Result<seq<Channel>, Err>)
    ensures r.Success? ==> UniquePaIds(r.value)
  {
    if startHour > endHour then Failure(InvalidHourRange)
    else match HoursFold(pages, date, startHour, endHour + 1, cacheOnly)
      case Failure(e) => Failure(e)
      case Success(m) =>
        HoursFoldIdsMatch(pages, date, startHour, endHour + 1, cacheOnly);
        ValuesUnique(m);
        Success(Values(m))
  }

  /** `channels_dict` stores each channel under its own `pa_id`. */
  lemma HoursFoldIdsMatch(pages: Pages, date: string, startHour: int, h: int, cacheOnly: bool)
    requires HoursFold(pages, date, startHour, h, cacheOnly).Success?
    ensures IdsMatch(HoursFold(pages, date, startHour, h, cacheOnly).value)
  {
    HoursFoldIsOneMerge(pages, date, startHour, h, cacheOnly);
    MergeBatchIdsMatch(Empty, Gathered(pages, date, startHour, h));
  }

  /** What the hour run returns, read off the fold over all its hours. */
  lemma FetchHoursOfFold(pages: Pages, date: string, startHour: int, endHour: int, cacheOnly: bool)
    requires startHour <= endHour
    ensures var fold := HoursFold(pages, date, startHour, endHour + 1, cacheOnly);
      && (fold.Failure? ==> FetchHours(pages, date, startHour, endHour, cacheOnly) == Failure(fold.error))
      && (fold.Success? ==> FetchHours(pages, date, startHour, endHour, cacheOnly) == Success(Values(fold.value)))
  {
  }

  /** The pages `fetch_multiple_hours` asks for, in order. */
  function HourRequests(pages: Pages, date: string, startHour: int, endHour: int, cacheOnly: bool): seq<Request>
  {
    if startHour > endHour then [] else HoursAsked(pages, date, startHour, endHour + 1, cacheOnly)
  }

  method FetchMultipleHours(pages: Pages, date: string, startHour: int, endHour: int, cacheOnly: bool)
    returns (r: Result<seq<Channel>, Err>, asked: seq<Request>)
    ensures r == FetchHours(pages, date, startHour, endHour, cacheOnly)
    ensures asked == HourRequests(pages, date, startHour, endHour, cacheOnly)
  {
    if startHour > endHour {
      return Failure(InvalidHourRange), [];
    }
    var channels;
    channels, asked := MergeHours(pages, date, startHour, endHour, cacheOnly);
    FetchHoursOfFold(pages, date, startHour, endHour, cacheOnly);
    if channels.Failure? {
      return Failure(channels.error), asked;
    }
    return Success(Values(channels.value)), asked;
  }

  /** The loop of `fetch_multiple_hours`: `channels_dict` after every hour, or the first error raised. */
  method MergeHours(pages: Pages, date: string, startHour: int, endHour: int, cacheOnly: bool)
    returns (r: Result<Merged, Err>, asked: seq<Request>)
    requires startHour <= endHour
    ensures r == HoursFold(pages, date, startHour, endHour + 1, cacheOnly)
    ensures asked == HoursAsked(pages, date, startHour, endHour + 1, cacheOnly)
  {
    asked := [];
    r := Success(Empty);
    var hour := startHour;
    while hour < endHour + 1 && r.Success?
      invariant startHour <= hour <= endHour + 1
      invariant r == HoursFold(pages, date, startHour, hour, cacheOnly)
      invariant asked == HoursAsked(pages, date, startHour, hour, cacheOnly)
    {
      HoursFoldStep(pages, date, startHour, hour, cacheOnly, r.value);
      asked := asked + [(date, hour)];
      var hourData := pages(date, hour);
      r := AddPageInto(r.value, hourData, cacheOnly);
      hour := hour + 1;
    }
    if r.Failure? {
      HoursFoldStopsAt(pages, date, startHour, hour, endHour + 1, cacheOnly);
    }
  }

  /** One more hour, after the earlier ones succeeded. */
  lemma HoursFoldStep(pages: Pages, date: string, startHour: int, h: int, cacheOnly: bool, m: Merged)
    requires startHour <= h && HoursFold(pages, date, startHour, h, cacheOnly) == Success(m)
    ensures HoursAsked(pages, date, startHour, h + 1, cacheOnly) == HoursAsked(pages, date, startHour, h, cacheOnly) + [(date, h)]
    ensures HoursFold(pages, date, startHour, h + 1, cacheOnly) == AddPage(m, pages(date, h), cacheOnly)
  {
  }

  /** Once an hour fails, the later hours are neither fetched nor able to change the error. */
  lemma {:induction false} HoursFoldStopsAt(pages: Pages, date: string, startHour: int, h: int, end: int, cacheOnly: bool)
    requires startHour <= h <= end && HoursFold(pages, date, startHour, h, cacheOnly).Failure?
    ensures HoursFold(pages, date, startHour, end, cacheOnly) == HoursFold(pages, date, startHour, h, cacheOnly)
    ensures HoursAsked(pages, date, startHour, end, cacheOnly) == HoursAsked(pages, date, startHour, h, cacheOnly)
    decreases end - h
  {
    if h < end {
      HoursFoldStopsAt(pages, date, startHour, h + 1, end, cacheOnly);
    }
  }

  // ---------------------------------------------------------------------
  // A range of days, each with the same hours.

  /** Two dates as `strptime` gives them, so inside the years Python can hold. */
  predicate DateRange(start: Date, end: Date) {
    ValidDate(start) && ValidDate(end) && InPythonRange(start) && InPythonRange(end)
  }

  /**
   * The date strings the loop formats, from `d` up to and including `end`.
   * On `date.max` the walk stops: stepping past it is the overflow that
   * `FetchDays` reports.
   */
  function DayStrings(d: Date, end: Date): (days: seq<string>)
    requires DateRange(d, end)
    decreases Ordinal(end) - Ordinal(d)
  {
    if !DateLe(d, end) then []
    else if d == MAX_DATE then [FormatDate(d)]
    else
      DateLeIsOrdinalOrder(d, end);
      NextDayInRange(d);
      [FormatDate(d)] + DayStrings(NextDay(d), end)
  }

  /** The first day string is the start's own; the rest are those from the next day on. */
  lemma DayStringsStep(d: Date, end: Date)
    requires DateRange(d, end) && DateLe(d, end)
    ensures DayStrings(d, end) != [] && DayStrings(d, end)[0] == FormatDate(d)
    ensures d == MAX_DATE ==> |DayStrings(d, end)| == 1
    ensures d != MAX_DATE ==> InPythonRange(NextDay(d)) && DayStrings(d, end)[1..] == DayStrings(NextDay(d), end)
  {
    if d != MAX_DATE {
      NextDayInRange(d);
      assert DayStrings(d, end) == [FormatDate(d)] + DayStrings(NextDay(d), end);
    }
  }

  /**
   * The end hour used for `day`: the source narrows it on the last day, but
   * to `end_hour` itself, so the branch changes nothing.
   */
  function DayEndHour(day: Date, end: Date, endHour: int): (h: int)
    ensures h == endHour
  {
    if day == end then endHour else endHour
  }

  /**
   * `channels_dict` after the first `k` of the `days`.  On the last day the
   * source sets the end hour to `end_hour`, which it already is, so every
   * day uses the same hours.
   */
  function DaysFold(pages: Pages, days: seq<string>, k: nat, startHour: int, endHour: int, cacheOnly: bool): (r: Result<Merged, Err>)
    requires k <= |days|
    ensures r.Success? ==> Valid(r.value)
  {
    if k == 0 then Success(Empty)
    else match DaysFold(pages, days, k - 1, startHour, endHour, cacheOnly)
      case Failure(e) => Failure(e)
      case Success(m) => AddPage(m, FetchHours(pages, days[k - 1], startHour, endHour, cacheOnly), cacheOnly)
  }

  /** The pages asked for during the first `k` of the `days`. */
  function DaysAsked(pages: Pages, days: seq<string>, k: nat, startHour: int, endHour: int, cacheOnly: bool): seq<Request>
    requires k <= |days|
  {
    if k == 0 then []
    else if DaysFold(pages, days, k - 1, startHour, endHour, cacheOnly).Failure? then
      DaysAsked(pages, days, k - 1, startHour, endHour, cacheOnly)
    else
      DaysAsked(pages, days, k - 1, startHour, endHour, cacheOnly)
        + HourRequests(pages, days[k - 1], startHour, endHour, cacheOnly)
  }

  /**
   * What `fetch_multiple_days` returns or raises.  After the last day the
   * loop still adds a day to the date; past 9999-12-31 that overflows.  On
   * success it holds one channel per `pa_id`.
   */
  function FetchDays(pages: Pages, start: Date, end: Date, startHour: int, endHour: int, cacheOnly: bool): (r: Result<seq<Channel>, Err>)
    requires DateRange(start, end)
    ensures r.Success? ==> UniquePaIds(r.value)
  {
    var days := DayStrings(start, end);
    if !DateLe(start, end) then Failure(InvalidDateRange)
    else match DaysFold(pages, days, |days|, startHour, endHour, cacheOnly)
      case Failure(e) => Failure(e)
      case Success(m) =>
        DaysFoldIdsMatch(pages, days, |days|, startHour, endHour, cacheOnly);
        ValuesUnique(m);
        if end == MAX_DATE then Failure(DateOverflow) else Success(Values(m))
  }

  lemma DaysFoldIdsMatch(pages: Pages, days: seq<string>, k: nat, startHour: int, endHour: int, cacheOnly: bool)
    requires k <= |days| && DaysFold(pages, days, k, startHour, endHour, cacheOnly).Success?
    ensures IdsMatch(DaysFold(pages, days, k, startHour, endHour, cacheOnly).value)
  {
    DaysFoldIsOneMerge(pages, days, k, startHour, endHour, cacheOnly);
    MergeBatchIdsMatch(Empty, DaysPages(pages, days, k, startHour, endHour));
  }

  /** The pages `fetch_multiple_days` asks for, in order. */
  function DayRequests(pages: Pages, start: Date, end: Date, startHour: int, endHour: int, cacheOnly: bool): seq<Request>
    requires DateRange(start, end)
  {
    var days := DayStrings(start, end);
    DaysAsked(pages, days, |days|, startHour, endHour, cacheOnly)
  }

  method FetchMultipleDays(pages: Pages, start: Date, end: Date, startHour: int, endHour: int, cacheOnly: bool)
    returns (r: Result<seq<Channel>, Err>, asked: seq<Request>)
    requires DateRange(start, end)
    ensures r == FetchDays(pages, start, end, startHour, endHour, cacheOnly)
    ensures asked == DayRequests(pages, start, end, startHour, endHour, cacheOnly)
  {
    asked := [];
    FetchDaysUnfold(pages, start, end, startHour, endHour, cacheOnly);
    if !DateLe(start, end) {
      return Failure(InvalidDateRange), asked;
    }
    ghost var days := DayStrings(start, end);
    var channels := Empty;
    var current := start;
    var k: nat := 0;
    while DateLe(current, end)
      invariant ValidDate(current) && InPythonRange(current)
      invariant k <= |days| && days[k..] == DayStrings(current, end)
      invariant DaysFold(pages, days, k, startHour, endHour, cacheOnly) == Success(channels)
      invariant DaysAsked(pages, days, k, startHour, endHour, cacheOnly) == asked
      decreases |days| - k
    {
      DayStringsStep(current, end);
      DaysFoldStep(pages, days, k, startHour, endHour, cacheOnly, channels);
      var dateStr := FormatDate(current);
      var currentEndHour := DayEndHour(current, end, endHour);
      var dayData, dayAsked := FetchMultipleHours(pages, dateStr, startHour, currentEndHour, cacheOnly);
      asked := asked + dayAsked;
      var merged := AddPageInto(channels, dayData, cacheOnly);
      if merged.Failure? {
        DaysFoldStopsAt(pages, days, k + 1, |days|, startHour, endHour, cacheOnly);
        return Failure(merged.error), asked;
      }
      channels := merged.value;
      if current == MAX_DATE {
        assert end == MAX_DATE && k + 1 == |days|;
        return Failure(DateOverflow), asked;
      }
      assert days[k + 1..] == days[k..][1..];
      current := NextDay(current);
      k := k + 1;
    }
    UpToMaxDate(current);
    assert k == |days| && end != MAX_DATE;
    return Success(Values(channels)), asked;
  }

  lemma FetchDaysUnfold(pages: Pages, start: Date, end: Date, startHour: int, endHour: int, cacheOnly: bool)
    requires DateRange(start, end)
    ensures !DateLe(start, end) ==>
      FetchDays(pages, start, end, startHour, endHour, cacheOnly) == Failure(InvalidDateRange)
      && DayRequests(pages, start, end, startHour, endHour, cacheOnly) == []
    ensures var days := DayStrings(start, end);
      DateLe(start, end) ==>
      && DayRequests(pages, start, end, startHour, endHour, cacheOnly) == DaysAsked(pages, days, |days|, startHour, endHour, cacheOnly)
      && FetchDays(pages, start, end, startHour, endHour, cacheOnly) ==
           match DaysFold(pages, days, |days|, startHour, endHour, cacheOnly)
           case Failure(e) => Failure(e)
           case Success(m) => if end == MAX_DATE then Failure(DateOverflow) else Success(Values(m))
  {
  }

  /** One more day, after the earlier ones succeeded. */
  lemma DaysFoldStep(pages: Pages, days: seq<string>, k: nat, startHour: int, endHour: int, cacheOnly: bool, m: Merged)
    requires k < |days| && DaysFold(pages, days, k, startHour, endHour, cacheOnly) == Success(m)
    ensures DaysAsked(pages, days, k + 1, startHour, endHour, cacheOnly) ==
      DaysAsked(pages, days, k, startHour, endHour, cacheOnly) + HourRequests(pages, days[k], startHour, endHour, cacheOnly)
    ensures DaysFold(pages, days, k + 1, startHour, endHour, cacheOnly) ==
      AddPage(m, FetchHours(pages, days[k], startHour, endHour, cacheOnly), cacheOnly)
  {
  }

  /** Once a day fails, the later days are neither fetched nor able to change the error. */
  lemma {:induction false} DaysFoldStopsAt(pages: Pages, days: seq<string>, k: nat, n: nat, startHour: int, endHour: int, cacheOnly: bool)
    requires k <= n <= |days| && DaysFold(pages, days, k, startHour, endHour, cacheOnly).Failure?
    ensures DaysFold(pages, days, n, startHour, endHour, cacheOnly) == DaysFold(pages, days, k, startHour, endHour, cacheOnly)
    ensures DaysAsked(pages, days, n, startHour, endHour, cacheOnly) == DaysAsked(pages, days, k, startHour, endHour, cacheOnly)
    decreases n - k
  {
    if k < n {
      var j: nat := k + 1;
      assert DaysFold(pages, days, j, startHour, endHour, cacheOnly) == DaysFold(pages, days, k, startHour, endHour, cacheOnly);
      assert DaysAsked(pages, days, j, startHour, endHour, cacheOnly) == DaysAsked(pages, days, k, startHour, endHour, cacheOnly);
      DaysFoldStopsAt(pages, days, j, n, startHour, endHour, cacheOnly);
    }
  }

  // ---------------------------------------------------------------------
  // What the range fetch asks for.

  /** The hours `startHour .. h-1` of `date`, ascending. */
  function Span(date: string, startHour: int, h: int): seq<Request> {
    var n := if h <= startHour then 0 else h - startHour;
    seq(n, i requires 0 <= i < n => (date, startHour + i))
  }

  /**
   * While the hours succeed every one of them is asked for, once each and in
   * ascending order; after a failure nothing more is asked for, and the
   * failure is the one the last hour asked for produced.
   */
  lemma {:induction false} HoursAskedSpan(pages: Pages, date: string, startHour: int, h: int, cacheOnly: bool)
    requires startHour <= h
    ensures HoursFold(pages, date, startHour, h, cacheOnly).Success? ==>
      HoursAsked(pages, date, startHour, h, cacheOnly) == Span(date, startHour, h)
    ensures HoursFold(pages, date, startHour, h, cacheOnly).Failure? ==>
      var n := |HoursAsked(pages, date, startHour, h, cacheOnly)|;
      && 1 <= n <= h - startHour
      && HoursAsked(pages, date, startHour, h, cacheOnly) == Span(date, startHour, startHour + n)
      && HoursFold(pages, date, startHour, startHour + n - 1, cacheOnly).Success?
      && HoursFold(pages, date, startHour, startHour + n, cacheOnly) == HoursFold(pages, date, startHour, h, cacheOnly)
    decreases h - startHour
  {
    if h > startHour {
      HoursAskedSpan(pages, date, startHour, h - 1, cacheOnly);
      var before := HoursAsked(pages, date, startHour, h - 1, cacheOnly);
      if HoursFold(pages, date, startHour, h - 1, cacheOnly).Success? {
        assert Span(date, startHour, h) == before + [(date, h - 1)];
      }
    }
  }

  /**
   * `fetch_multiple_hours` rejects `start_hour > end_hour` before any fetch;
   * otherwise it asks for `start_hour .. end_hour` in ascending order,
   * stopping right after the hour that raised.
   */
  lemma HourRequestsInOrder(pages: Pages, date: string, startHour: int, endHour: int, cacheOnly: bool)
    ensures startHour > endHour ==>
      FetchHours(pages, date, startHour, endHour, cacheOnly) == Failure(InvalidHourRange)
      && HourRequests(pages, date, startHour, endHour, cacheOnly) == []
    ensures startHour <= endHour && FetchHours(pages, date, startHour, endHour, cacheOnly).Success? ==>
      HourRequests(pages, date, startHour, endHour, cacheOnly) == Span(date, startHour, endHour + 1)
    ensures startHour <= endHour && FetchHours(pages, date, startHour, endHour, cacheOnly).Failure? ==>
      var n := |HourRequests(pages, date, startHour, endHour, cacheOnly)|;
      1 <= n <= endHour - startHour + 1 && HourRequests(pages, date, startHour, endHour, cacheOnly) == Span(date, startHour, startHour + n)
  {
    if startHour <= endHour {
      HoursAskedSpan(pages, date, startHour, endHour + 1, cacheOnly);
    }
  }

  /**
   * The dates `fetch_multiple_days` visits: one per calendar day from `start`
   * to `end` inclusive, the `k`-th being `start + k days`.
   */
  lemma {:induction false} DayStringsCount(d: Date, end: Date)
    requires DateRange(d, end)
    ensures |DayStrings(d, end)| == if DateLe(d, end) then Ordinal(end) - Ordinal(d) + 1 else 0
    decreases Ordinal(end) - Ordinal(d)
  {
    DateLeIsOrdinalOrder(d, end);
    if DateLe(d, end) && d != MAX_DATE {
      NextDayInRange(d);
      DateLeIsOrdinalOrder(NextDay(d), end);
      DayStringsCount(NextDay(d), end);
    }
  }

  /** Each date of the range is visited, at its distance from the first day. */
  lemma {:induction false} DayStringsAt(d: Date, end: Date, x: Date)
    requires DateRange(d, end) && ValidDate(x) && InPythonRange(x) && DateLe(d, x) && DateLe(x, end)
    ensures 0 <= Ordinal(x) - Ordinal(d) < |DayStrings(d, end)|
    ensures DayStrings(d, end)[Ordinal(x) - Ordinal(d)] == FormatDate(x)
    decreases Ordinal(x) - Ordinal(d)
  {
    DateLeIsOrdinalOrder(d, x);
    DayStringsStep(d, end);
    if x != d {
      assert d != MAX_DATE;
      var next := NextDay(d);
      DateLeIsOrdinalOrder(next, x);
      DayStringsAt(next, end, x);
      var ds, k := DayStrings(d, end), Ordinal(x) - Ordinal(d);
      assert Ordinal(x) - Ordinal(next) == k - 1 && DayStrings(next, end) == ds[1..];
      assert ds[k] == ds[1..][k - 1];
    }
  }

  // ---------------------------------------------------------------------
  // Cache misses in cache-only mode.

  /** The pages with every "No cached data" error replaced by an empty page. */
  function EmptyOnMiss(pages: Pages): Pages {
    (date, hour) =>
      if pages(date, hour).Failure? && SaysNoCachedData(pages(date, hour).error) then Success([])
      else pages(date, hour)
  }

  /** Skipping a cache miss in cache-only mode is merging an empty page for that hour. */
  lemma {:induction false} SkipIsEmptyPage(pages: Pages, date: string, startHour: int, h: int)
    ensures HoursFold(pages, date, startHour, h, true) == HoursFold(EmptyOnMiss(pages), date, startHour, h, false)
    ensures HoursAsked(pages, date, startHour, h, true) == HoursAsked(EmptyOnMiss(pages), date, startHour, h, false)
    decreases h - startHour
  {
    if h > startHour {
      SkipIsEmptyPage(pages, date, startHour, h - 1);
    }
  }

  /** In cache-only mode the hour loop never lets a cache miss escape. */
  lemma {:induction false} HoursFoldNeverMisses(pages: Pages, date: string, startHour: int, h: int)
    ensures HoursFold(pages, date, startHour, h, true).Failure? ==>
      !SaysNoCachedData(HoursFold(pages, date, startHour, h, true).error)
    decreases h - startHour
  {
    if h > startHour {
      HoursFoldNeverMisses(pages, date, startHour, h - 1);
    }
  }

  /**
   * So the day loop's own cache-miss clause never fires: whatever
   * `fetch_multiple_hours` raises in cache-only mode is raised again.
   */
  lemma DaySkipUnreachable(pages: Pages, date: string, startHour: int, endHour: int, m: Merged)
    requires Valid(m)
    ensures FetchHours(pages, date, startHour, endHour, true).Failure? ==>
      !Skipped(FetchHours(pages, date, startHour, endHour, true).error, true)
      && AddPage(m, FetchHours(pages, date, startHour, endHour, true), true) == Failure(FetchHours(pages, date, startHour, endHour, true).error)
  {
    HoursFoldNeverMisses(pages, date, startHour, endHour + 1);
  }

  /**
   * Where an error of the hour loop comes from: a KeyError while merging,
   * or a page that raised something other than a skipped cache miss.
   */
  lemma {:induction false} HoursErrorOrigin(pages: Pages, date: string, startHour: int, h: int, cacheOnly: bool)
    requires HoursFold(pages, date, startHour, h, cacheOnly).Failure?
    ensures var e := HoursFold(pages, date, startHour, h, cacheOnly).error;
      e.KeyMissing? || exists hour :: startHour <= hour < h && pages(date, hour) == Failure(e) && !Skipped(e, cacheOnly)
    decreases h - startHour
  {
    if HoursFold(pages, date, startHour, h - 1, cacheOnly).Failure? {
      HoursErrorOrigin(pages, date, startHour, h - 1, cacheOnly);
    }
  }

  // ---------------------------------------------------------------------
  // The range fetch is one merge of all its pages.

  /** The channels of every page that came back for the hours `startHour .. h-1`, in order. */
  function Gathered(pages: Pages, date: string, startHour: int, h: int): seq<Channel>
    decreases h - startHour
  {
    if h <= startHour then []
    else Gathered(pages, date, startHour, h - 1) + (if pages(date, h - 1).Success? then pages(date, h - 1).value else [])
  }

  /**
   * A successful hour loop is a single merge of all the pages' channels into
   * an empty dictionary, so every property of `MergeBatch` holds of it.
   */
  lemma {:induction false} HoursFoldIsOneMerge(pages: Pages, date: string, startHour: int, h: int, cacheOnly: bool)
    requires HoursFold(pages, date, startHour, h, cacheOnly).Success?
    ensures HoursFold(pages, date, startHour, h, cacheOnly) == MergeBatch(Empty, Gathered(pages, date, startHour, h))
    decreases h - startHour
  {
    if h > startHour {
      HoursFoldIsOneMerge(pages, date, startHour, h - 1, cacheOnly);
      var page := if pages(date, h - 1).Success? then pages(date, h - 1).value else [];
      MergeBatchAppend(Empty, Gathered(pages, date, startHour, h - 1), page);
    }
  }

  /** Every page that came back for the first `k` of the `days`: days in order, hours ascending. */
  function DaysPages(pages: Pages, days: seq<string>, k: nat, startHour: int, endHour: int): seq<Channel>
    requires k <= |days|
  {
    if k == 0 then [] else DaysPages(pages, days, k - 1, startHour, endHour) + Gathered(pages, days[k - 1], startHour, endHour + 1)
  }

  /** A day that let the loop go on returned its hours' merge. */
  lemma DayMerged(pages: Pages, days: seq<string>, k: nat, startHour: int, endHour: int, cacheOnly: bool)
    requires k < |days| && DaysFold(pages, days, k + 1, startHour, endHour, cacheOnly).Success?
    ensures DaysFold(pages, days, k, startHour, endHour, cacheOnly).Success?
    ensures var g := Gathered(pages, days[k], startHour, endHour + 1);
      && MergeBatch(Empty, g).Success?
      && DaysFold(pages, days, k + 1, startHour, endHour, cacheOnly) ==
           MergeBatch(DaysFold(pages, days, k, startHour, endHour, cacheOnly).value, Values(MergeBatch(Empty, g).value))
  {
    var m := DaysFold(pages, days, k, startHour, endHour, cacheOnly).value;
    DaysFoldStep(pages, days, k, startHour, endHour, cacheOnly, m);
    if cacheOnly {
      HoursFoldNeverMisses(pages, days[k], startHour, endHour + 1);
    }
    assert startHour <= endHour && HoursFold(pages, days[k], startHour, endHour + 1, cacheOnly).Success?;
    HoursFoldIsOneMerge(pages, days[k], startHour, endHour + 1, cacheOnly);
  }

  /**
   * A successful day loop is one merge of every page of every day into an
   * empty dictionary, although it merges each day's merged result: merging
   * a merge is merging its pages.
   */
  lemma {:induction false} DaysFoldIsOneMerge(pages: Pages, days: seq<string>, k: nat, startHour: int, endHour: int, cacheOnly: bool)
    requires k <= |days| && DaysFold(pages, days, k, startHour, endHour, cacheOnly).Success?
    ensures DaysFold(pages, days, k, startHour, endHour, cacheOnly) == MergeBatch(Empty, DaysPages(pages, days, k, startHour, endHour))
  {
    if k > 0 {
      var j: nat := k - 1;
      DayPagesMerged(pages, days, j, startHour, endHour, cacheOnly);
      DaysFoldIsOneMerge(pages, days, j, startHour, endHour, cacheOnly);
    }
  }

  /**
   * One more day: a run that went on past day `j` succeeded on the days
   * before it, and if those fold as one merge of their pages, so do they
   * with day `j`'s pages.
   */
  lemma DayPagesMerged(pages: Pages, days: seq<string>, j: nat, startHour: int, endHour: int, cacheOnly: bool)
    requires j < |days| && DaysFold(pages, days, j + 1, startHour, endHour, cacheOnly).Success?
    ensures DaysFold(pages, days, j, startHour, endHour, cacheOnly).Success?
    ensures DaysFold(pages, days, j, startHour, endHour, cacheOnly) == MergeBatch(Empty, DaysPages(pages, days, j, startHour, endHour)) ==>
      DaysFold(pages, days, j + 1, startHour, endHour, cacheOnly) == MergeBatch(Empty, DaysPages(pages, days, j + 1, startHour, endHour))
  {
    var before := DaysPages(pages, days, j, startHour, endHour);
    var g := Gathered(pages, days[j], startHour, endHour + 1);
    DayMerged(pages, days, j, startHour, endHour, cacheOnly);
    assert DaysPages(pages, days, j + 1, startHour, endHour) == before + g;
    if DaysFold(pages, days, j, startHour, endHour, cacheOnly) == MergeBatch(Empty, before) {
      MergeSplit(before, g);
    }
  }

  /** Every hour of every day, days in order and hours ascending within a day. */
  function DaysSpan(days: seq<string>, k: nat, startHour: int, endHour: int): seq<Request>
    requires k <= |days|
  {
    if k == 0 then [] else DaysSpan(days, k - 1, startHour, endHour) + Span(days[k - 1], startHour, endHour + 1)
  }

  /** While the days succeed, each of their hours is asked for exactly once, in order. */
  lemma {:induction false} DaysAskedSpan(pages: Pages, days: seq<string>, k: nat, startHour: int, endHour: int, cacheOnly: bool)
    requires k <= |days| && DaysFold(pages, days, k, startHour, endHour, cacheOnly).Success?
    ensures DaysAsked(pages, days, k, startHour, endHour, cacheOnly) == DaysSpan(days, k, startHour, endHour)
  {
    if k > 0 {
      var j: nat := k - 1;
      DaySucceeds(pages, days, j, startHour, endHour, cacheOnly);
      DaysAskedSpan(pages, days, j, startHour, endHour, cacheOnly);
      assert DaysSpan(days, j + 1, startHour, endHour) == DaysSpan(days, j, startHour, endHour) + Span(days[j], startHour, endHour + 1);
    }
  }

  /** A day that kept the loop going returned its channels and asked for all its hours. */
  lemma DaySucceeds(pages: Pages, days: seq<string>, k: nat, startHour: int, endHour: int, cacheOnly: bool)
    requires k < |days| && DaysFold(pages, days, k + 1, startHour, endHour, cacheOnly).Success?
    ensures DaysFold(pages, days, k, startHour, endHour, cacheOnly).Success?
    ensures DaysAsked(pages, days, k + 1, startHour, endHour, cacheOnly) ==
      DaysAsked(pages, days, k, startHour, endHour, cacheOnly) + Span(days[k], startHour, endHour + 1)
  {
    var m := DaysFold(pages, days, k, startHour, endHour, cacheOnly).value;
    DaysFoldStep(pages, days, k, startHour, endHour, cacheOnly, m);
    if cacheOnly {
      HoursFoldNeverMisses(pages, days[k], startHour, endHour + 1);
    }
    HourRequestsInOrder(pages, days[k], startHour, endHour, cacheOnly);
  }

  /**
   * A successful `fetch_multiple_days` asked for every hour `startHour ..
   * endHour` of every day from `start` to `end`, in order, and returned one
   * merge of all the pages that came back, in the order they were asked for.
   */
  lemma FetchDaysCovers(pages: Pages, start: Date, end: Date, startHour: int, endHour: int, cacheOnly: bool)
    requires DateRange(start, end) && FetchDays(pages, start, end, startHour, endHour, cacheOnly).Success?
    ensures var days := DayStrings(start, end);
      && |days| == Ordinal(end) - Ordinal(start) + 1
      && DayRequests(pages, start, end, startHour, endHour, cacheOnly) == DaysSpan(days, |days|, startHour, endHour)
      && MergeBatch(Empty, DaysPages(pages, days, |days|, startHour, endHour)).Success?
      && FetchDays(pages, start, end, startHour, endHour, cacheOnly).value ==
           Values(MergeBatch(Empty, DaysPages(pages, days, |days|, startHour, endHour)).value)
  {
    var days := DayStrings(start, end);
    FetchDaysUnfold(pages, start, end, startHour, endHour, cacheOnly);
    DayStringsCount(start, end);
    DaysAskedSpan(pages, days, |days|, startHour, endHour, cacheOnly);
    DaysFoldIsOneMerge(pages, days, |days|, startHour, endHour, cacheOnly);
  }

  /** The first `k` days of a list are the first `k` days of any longer list. */
  lemma {:induction false} DaysFoldPrefix(pages: Pages, a: seq<string>, b: seq<string>, k: nat, startHour: int, endHour: int, cacheOnly: bool)
    requires k <= |a|
    ensures DaysFold(pages, a + b, k, startHour, endHour, cacheOnly) == DaysFold(pages, a, k, startHour, endHour, cacheOnly)
    ensures DaysPages(pages, a + b, k, startHour, endHour) == DaysPages(pages, a, k, startHour, endHour)
  {
    if k > 0 {
      var j: nat := k - 1;
      DaysFoldPrefix(pages, a, b, j, startHour, endHour, cacheOnly);
      var day := a[j];
      assert (a + b)[j] == day;
      var hours := FetchHours(pages, day, startHour, endHour, cacheOnly);
      var prev := DaysFold(pages, a, j, startHour, endHour, cacheOnly);
      if prev.Success? {
        assert DaysFold(pages, a + b, k, startHour, endHour, cacheOnly) == AddPage(prev.value, hours, cacheOnly);
        assert DaysFold(pages, a, k, startHour, endHour, cacheOnly) == AddPage(prev.value, hours, cacheOnly);
      } else {
        assert DaysFold(pages, a + b, k, startHour, endHour, cacheOnly) == prev;
        assert DaysFold(pages, a, k, startHour, endHour, cacheOnly) == prev;
      }
      assert DaysPages(pages, a + b, k, startHour, endHour) ==
        DaysPages(pages, a, j, startHour, endHour) + Gathered(pages, day, startHour, endHour + 1);
    }
  }

  /** The pages of two runs of days back to back are the pages of the first run, then the second's. */
  lemma {:induction false} DaysPagesAppend(pages: Pages, a: seq<string>, b: seq<string>, k: nat, startHour: int, endHour: int)
    requires k <= |b|
    ensures DaysPages(pages, a + b, |a| + k, startHour, endHour) ==
      DaysPages(pages, a, |a|, startHour, endHour) + DaysPages(pages, b, k, startHour, endHour)
  {
    if k == 0 {
      DaysFoldPrefix(pages, a, b, |a| + k, startHour, endHour, false);
    } else {
      DaysPagesAppend(pages, a, b, k - 1, startHour, endHour);
      assert (a + b)[|a| + k - 1] == b[k - 1];
      var pa, pb := DaysPages(pages, a, |a|, startHour, endHour), DaysPages(pages, b, k - 1, startHour, endHour);
      var g := Gathered(pages, b[k - 1], startHour, endHour + 1);
      assert DaysPages(pages, a + b, |a| + k, startHour, endHour) == DaysPages(pages, a + b, |a| + k - 1, startHour, endHour) + g;
      assert DaysPages(pages, b, k, startHour, endHour) == pb + g;
      ConcatAssoc(pa, pb, g);
    }
  }

  /** A run of days that succeeded also succeeded on each of its first days. */
  lemma {:induction false} DaysFoldEarlier(pages: Pages, days: seq<string>, k: nat, n: nat, startHour: int, endHour: int, cacheOnly: bool)
    requires k <= n <= |days| && DaysFold(pages, days, n, startHour, endHour, cacheOnly).Success?
    ensures DaysFold(pages, days, k, startHour, endHour, cacheOnly).Success?
  {
    if DaysFold(pages, days, k, startHour, endHour, cacheOnly).Failure? {
      DaysFoldStopsAt(pages, days, k, n, startHour, endHour, cacheOnly);
    }
  }

  /** A run of days that succeeded also succeeded on its first part. */
  lemma DaysFoldOfFirstPart(pages: Pages, a: seq<string>, b: seq<string>, startHour: int, endHour: int, cacheOnly: bool)
    requires DaysFold(pages, a + b, |a + b|, startHour, endHour, cacheOnly).Success?
    ensures DaysFold(pages, a, |a|, startHour, endHour, cacheOnly).Success?
  {
    DaysFoldEarlier(pages, a + b, |a|, |a + b|, startHour, endHour, cacheOnly);
    DaysFoldPrefix(pages, a, b, |a|, startHour, endHour, cacheOnly);
  }

  /** A successful run over two parts is one merge of the first part's pages, then the second's. */
  lemma DaysFoldOfParts(pages: Pages, a: seq<string>, b: seq<string>, startHour: int, endHour: int, cacheOnly: bool)
    requires DaysFold(pages, a + b, |a + b|, startHour, endHour, cacheOnly).Success?
    ensures DaysFold(pages, a + b, |a + b|, startHour, endHour, cacheOnly) ==
      MergeBatch(Empty, DaysPages(pages, a, |a|, startHour, endHour) + DaysPages(pages, b, |b|, startHour, endHour))
  {
    DaysFoldIsOneMerge(pages, a + b, |a + b|, startHour, endHour, cacheOnly);
    DaysPagesOfJoin(pages, a, b, startHour, endHour);
  }

  lemma DaysPagesOfJoin(pages: Pages, a: seq<string>, b: seq<string>, startHour: int, endHour: int)
    ensures DaysPages(pages, a + b, |a + b|, startHour, endHour) ==
      DaysPages(pages, a, |a|, startHour, endHour) + DaysPages(pages, b, |b|, startHour, endHour)
  {
    DaysPagesAppend(pages, a, b, |b|, startHour, endHour);
  }

  /**
   * Fetching the days `a` and then merging in what fetching the days `b` on
   * their own returned is fetching `a + b` in one run.
   */
  lemma DaysSplit(pages: Pages, a: seq<string>, b: seq<string>, startHour: int, endHour: int, cacheOnly: bool)
    requires DaysFold(pages, a + b, |a + b|, startHour, endHour, cacheOnly).Success?
    requires DaysFold(pages, b, |b|, startHour, endHour, cacheOnly).Success?
    ensures DaysFold(pages, a, |a|, startHour, endHour, cacheOnly).Success?
    ensures DaysFold(pages, a + b, |a + b|, startHour, endHour, cacheOnly) ==
      MergeBatch(DaysFold(pages, a, |a|, startHour, endHour, cacheOnly).value, Values(DaysFold(pages, b, |b|, startHour, endHour, cacheOnly).value))
  {
    DaysFoldOfFirstPart(pages, a, b, startHour, endHour, cacheOnly);
    DaysFoldOfParts(pages, a, b, startHour, endHour, cacheOnly);
    DaysFoldIsOneMerge(pages, a, |a|, startHour, endHour, cacheOnly);
    DaysFoldIsOneMerge(pages, b, |b|, startHour, endHour, cacheOnly);
    MergeSplit(DaysPages(pages, a, |a|, startHour, endHour), DaysPages(pages, b, |b|, startHour, endHour));
  }
}
