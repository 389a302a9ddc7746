/**
 * The "now" mode: `calculate_now_range` picks a window from one hour before
 * the current UTC time to the end of the day `days` days ahead, and `main`
 * hands that window to `fetch_multiple_days`.
 *
 * The current time is a parameter (`datetime.utcnow()` is not modelled).
 * `calculate_now_range` returns date strings that `fetch_multiple_days`
 * parses back; here the window carries the dates themselves.
 */
module NowWindow {
  import opened Wrappers
  import opened CivilTime
  import opened TimeText
  import opened Listings
  import opened Merge
  import opened RangeFetch

  datatype Window = Window(startDate: Date, endDate: Date, startHour: int, endHour: int)

  /** The hour slot `t` falls in, counted from the start of day 0 of the calendar. */
  function HourSlot(t: DateTime): int
    requires ValidDate(t.date)
  {
    LocalSeconds(t) / 3600
  }

  lemma HourSlotOf(t: DateTime)
    requires ValidDateTime(t)
    ensures HourSlot(t) == Ordinal(t.date) * 24 + t.hour
  {
    var q := Ordinal(t.date) * 24 + t.hour;
    assert LocalSeconds(t) == q * 3600 + (t.minute * 60 + t.second);
  }

  /**
   * `calculate_now_range(days)` at the instant `now`: the window starts in
   * the hour before `now` and ends at hour 23 of the date `days` days after
   * `now`.  Either end leaving the years `datetime` can hold raises.
   */
  function NowRange(now: DateTime, days: int): (r: Result<Window, Err>)
    requires ValidDateTime(now) && InPythonRange(now.date)
    ensures r.Success? <==> 24 <= HourSlot(now) - 1 && 1 <= Ordinal(now.date) + days <= MAX_ORDINAL
    ensures r.Failure? ==> r.error == DateOverflow
    ensures r.Success? ==>
      && DateRange(r.value.startDate, r.value.endDate)
      && 0 <= r.value.startHour < 24 && r.value.endHour == 23
      && Ordinal(r.value.startDate) * 24 + r.value.startHour == HourSlot(now) - 1
      && Ordinal(r.value.endDate) == Ordinal(now.date) + days
  {
    var startTime := AddMinutes(now, -60);
    var endDate := AddDays(now.date, days);
    HourSlotOf(now);
    HourSlotOf(startTime);
    OrdinalInRange(startTime.date);
    OrdinalInRange(endDate);
    InRangeOrdinal(now.date);
    if !InPythonRange(startTime.date) || !InPythonRange(endDate) then Failure(DateOverflow)
    else Success(Window(startTime.date, endDate, startTime.hour, 23))
  }

  // ---------------------------------------------------------------------
  // As written: every day of the window starts at the first day's hour.

  /** What `main` does in now mode: one `fetch_multiple_days` over the window. */
  function FetchNow(pages: Pages, now: DateTime, days: int, cacheOnly: bool): (r: Result<seq<Channel>, Err>)
    requires ValidDateTime(now) && InPythonRange(now.date)
    ensures NowRange(now, days).Failure? ==> r == Failure(DateOverflow)
    ensures r.Success? ==> NowRange(now, days).Success? && UniquePaIds(r.value)
  {
    match NowRange(now, days)
    case Failure(e) => Failure(e)
    case Success(w) => FetchDays(pages, w.startDate, w.endDate, w.startHour, w.endHour, cacheOnly)
  }

  /** The pages now mode asks for: none when the window overflows, and only real hours of the day. */
  function NowRequests(pages: Pages, now: DateTime, days: int, cacheOnly: bool): (r: seq<Request>)
    requires ValidDateTime(now) && InPythonRange(now.date)
    ensures NowRange(now, days).Failure? ==> r == []
    ensures forall i :: 0 <= i < |r| ==> 0 <= r[i].1 <= 23
  {
    match NowRange(now, days)
    case Failure(_) => []
    case Success(w) =>
      var dates := DayStrings(w.startDate, w.endDate);
      DaysAskedHours(pages, dates, |dates|, w.startHour, w.endHour, cacheOnly);
      DayRequests(pages, w.startDate, w.endDate, w.startHour, w.endHour, cacheOnly)
  }

  /** The day loop never asks for an hour outside `startHour .. endHour`, on any day. */
  lemma {:induction false} DaysAskedHours(pages: Pages, days: seq<string>, k: nat, startHour: int, endHour: int, cacheOnly: bool)
    requires k <= |days|
    ensures forall i :: 0 <= i < |DaysAsked(pages, days, k, startHour, endHour, cacheOnly)| ==>
      startHour <= DaysAsked(pages, days, k, startHour, endHour, cacheOnly)[i].1 <= endHour
  {
    if k > 0 {
      DaysAskedHours(pages, days, k - 1, startHour, endHour, cacheOnly);
      HourRequestsInOrder(pages, days[k - 1], startHour, endHour, cacheOnly);
    }
  }

  /**
   * In now mode no hour before the first day's start hour is ever asked for,
   * on any day, although the window runs through whole later days.
   */
  lemma NowSkipsEarlyHours(pages: Pages, now: DateTime, days: int, cacheOnly: bool)
    requires ValidDateTime(now) && InPythonRange(now.date) && NowRange(now, days).Success?
    ensures forall i :: 0 <= i < |NowRequests(pages, now, days, cacheOnly)| ==>
      NowRange(now, days).value.startHour <= NowRequests(pages, now, days, cacheOnly)[i].1
  {
    var w := NowRange(now, days).value;
    DaysAskedHours(pages, DayStrings(w.startDate, w.endDate), |DayStrings(w.startDate, w.endDate)|, w.startHour, w.endHour, cacheOnly);
  }

  /** 2025-01-15 15:30 UTC with `--now-days 1`: the window starts at 14:00 and ends with 2025-01-16. */
  lemma NowExampleWindow()
    ensures NowRange(DateTime(Date(2025, 1, 15), 15, 30, 0, None), 1) ==
      Success(Window(Date(2025, 1, 15), Date(2025, 1, 16), 14, 23))
  {
    var now := DateTime(Date(2025, 1, 15), 15, 30, 0, None);
    assert AddMinutes(now, -60) == DateTime(Date(2025, 1, 15), 14, 30, 0, None) by {
      assert AddDays(now.date, 0) == now.date;
    }
    assert AddDays(now.date, 1) == Date(2025, 1, 16) by {
      assert NextDay(now.date) == Date(2025, 1, 16);
      assert AddDays(Date(2025, 1, 16), 0) == Date(2025, 1, 16);
    }
  }

  /** ... so hour 0 of 2025-01-16, inside the window, is never fetched, whatever the pages hold. */
  lemma NowMissesMidnight(pages: Pages, cacheOnly: bool)
    ensures ("2025-01-16", 0) !in NowRequests(pages, DateTime(Date(2025, 1, 15), 15, 30, 0, None), 1, cacheOnly)
  {
    NowExampleWindow();
    NowSkipsEarlyHours(pages, DateTime(Date(2025, 1, 15), 15, 30, 0, None), 1, cacheOnly);
  }

  // ---------------------------------------------------------------------
  // Corrected: the first day from its start hour, every later day whole.

  /** A window whose first date comes before its last, as every now-mode window with `days >= 1` does. */
  predicate Ordered(w: Window) {
    && DateRange(w.startDate, w.endDate) && 0 <= w.startHour <= 23
    && w.startDate != MAX_DATE && InPythonRange(NextDay(w.startDate))
    && DateLe(NextDay(w.startDate), w.endDate)
  }

  lemma WindowOrder(now: DateTime, days: int)
    requires ValidDateTime(now) && InPythonRange(now.date) && days >= 1 && NowRange(now, days).Success?
    ensures Ordered(NowRange(now, days).value)
  {
    var w := NowRange(now, days).value;
    HourSlotOf(now);
    assert Ordinal(w.startDate) < Ordinal(w.endDate);
    DateLeIsOrdinalOrder(w.startDate, w.endDate);
    UpToMaxDate(w.endDate);
    assert w.startDate != MAX_DATE;
    NextDayInRange(w.startDate);
    DateLeIsOrdinalOrder(NextDay(w.startDate), w.endDate);
  }

  /**
   * Now mode as evidently intended: hours `start_hour .. 23` of the first
   * day, then every hour of each later day up to the last, merged as one
   * batch.
   */
  function FetchWindow(pages: Pages, w: Window, cacheOnly: bool): Result<seq<Channel>, Err>
    requires Ordered(w)
  {
    match FetchHours(pages, FormatDate(w.startDate), w.startHour, 23, cacheOnly)
    case Failure(e) => Failure(e)
    case Success(first) =>
      match FetchDays(pages, NextDay(w.startDate), w.endDate, 0, 23, cacheOnly)
      case Failure(e) => Failure(e)
      case Success(rest) =>
        match MergeBatch(Empty, first + rest)
        case Failure(e) => Failure(e)
        case Success(m) => Success(Values(m))
  }

  function WindowRequests(pages: Pages, w: Window, cacheOnly: bool): seq<Request>
    requires Ordered(w)
  {
    var first := FetchHours(pages, FormatDate(w.startDate), w.startHour, 23, cacheOnly);
    HourRequests(pages, FormatDate(w.startDate), w.startHour, 23, cacheOnly)
      + (if first.Failure? then [] else DayRequests(pages, NextDay(w.startDate), w.endDate, 0, 23, cacheOnly))
  }

  /** The corrected now mode; `main` only accepts `--now-days` of at least 1. */
  function NowFixed(pages: Pages, now: DateTime, days: int, cacheOnly: bool): Result<seq<Channel>, Err>
    requires ValidDateTime(now) && InPythonRange(now.date) && days >= 1
  {
    match NowRange(now, days)
    case Failure(e) => Failure(e)
    case Success(w) =>
      WindowOrder(now, days);
      FetchWindow(pages, w, cacheOnly)
  }

  function NowFixedRequests(pages: Pages, now: DateTime, days: int, cacheOnly: bool): seq<Request>
    requires ValidDateTime(now) && InPythonRange(now.date) && days >= 1
  {
    match NowRange(now, days)
    case Failure(_) => []
    case Success(w) =>
      WindowOrder(now, days);
      WindowRequests(pages, w, cacheOnly)
  }

  method FetchNowWindow(pages: Pages, now: DateTime, days: int, cacheOnly: bool)
    returns (r: Result<seq<Channel>, Err>, asked: seq<Request>)
    requires ValidDateTime(now) && InPythonRange(now.date) && days >= 1
    ensures r == NowFixed(pages, now, days, cacheOnly)
    ensures asked == NowFixedRequests(pages, now, days, cacheOnly)
  {
    asked := [];
    var window := NowRange(now, days);
    if window.Failure? {
      return Failure(window.error), asked;
    }
    var w := window.value;
    WindowOrder(now, days);
    var first, firstAsked := FetchMultipleHours(pages, FormatDate(w.startDate), w.startHour, 23, cacheOnly);
    asked := firstAsked;
    if first.Failure? {
      return Failure(first.error), asked;
    }
    var rest, restAsked := FetchMultipleDays(pages, NextDay(w.startDate), w.endDate, 0, 23, cacheOnly);
    asked := asked + restAsked;
    if rest.Failure? {
      return Failure(rest.error), asked;
    }
    var merged := MergeInto(Empty, first.value + rest.value);
    if merged.Failure? {
      return Failure(merged.error), asked;
    }
    return Success(Values(merged.value)), asked;
  }

  lemma {:induction false} DaysSpanContains(days: seq<string>, n: nat, k: nat, startHour: int, endHour: int, h: int)
    requires k < n <= |days| && startHour <= h <= endHour
    ensures (days[k], h) in DaysSpan(days, n, startHour, endHour)
  {
    if k == n - 1 {
      assert Span(days[k], startHour, endHour + 1)[h - startHour] == (days[k], h);
    } else {
      DaysSpanContains(days, n - 1, k, startHour, endHour, h);
    }
  }

  /** A successful day loop over whole days asked for every hour of every day in its range. */
  lemma WholeDaysCovered(pages: Pages, start: Date, end: Date, cacheOnly: bool, d: Date, h: int)
    requires DateRange(start, end) && FetchDays(pages, start, end, 0, 23, cacheOnly).Success?
    requires ValidDate(d) && InPythonRange(d) && DateLe(start, d) && DateLe(d, end) && 0 <= h <= 23
    ensures (FormatDate(d), h) in DayRequests(pages, start, end, 0, 23, cacheOnly)
  {
    var k := Ordinal(d) - Ordinal(start);
    FetchDaysCovers(pages, start, end, 0, 23, cacheOnly);
    var days := DayStrings(start, end);
    DayStringsAt(start, end, d);
    DaysSpanContains(days, |days|, k, 0, 23, h);
  }

  /**
   * A successful fetch of a window has asked for every hour of it: from the
   * start hour on the first day, and all 24 hours of every later day through
   * the last.
   */
  lemma WindowCovers(pages: Pages, w: Window, cacheOnly: bool, d: Date, h: int)
    requires Ordered(w) && FetchWindow(pages, w, cacheOnly).Success?
    requires ValidDate(d) && InPythonRange(d) && 0 <= h <= 23
    requires DateLe(w.startDate, d) && DateLe(d, w.endDate)
    requires d == w.startDate ==> w.startHour <= h
    ensures (FormatDate(d), h) in WindowRequests(pages, w, cacheOnly)
  {
    var date := FormatDate(w.startDate);
    var next := NextDay(w.startDate);
    var first := FetchHours(pages, date, w.startHour, 23, cacheOnly);
    assert first.Success? && FetchDays(pages, next, w.endDate, 0, 23, cacheOnly).Success?;
    assert WindowRequests(pages, w, cacheOnly) ==
      HourRequests(pages, date, w.startHour, 23, cacheOnly) + DayRequests(pages, next, w.endDate, 0, 23, cacheOnly);
    if d == w.startDate {
      FirstDayCovered(pages, date, w.startHour, cacheOnly, h);
    } else {
      DateLeIsOrdinalOrder(w.startDate, d);
      DateLeIsOrdinalOrder(next, d);
      WholeDaysCovered(pages, next, w.endDate, cacheOnly, d, h);
    }
  }

  /** A successful first day asked for every hour from its start hour on. */
  lemma FirstDayCovered(pages: Pages, date: string, startHour: int, cacheOnly: bool, h: int)
    requires startHour <= h <= 23 && FetchHours(pages, date, startHour, 23, cacheOnly).Success?
    ensures (date, h) in HourRequests(pages, date, startHour, 23, cacheOnly)
  {
    HourRequestsInOrder(pages, date, startHour, 23, cacheOnly);
    assert Span(date, startHour, 24)[h - startHour] == (date, h);
  }

  /** So the corrected now mode fetches every hour from the one before `now` to the end of the last day. */
  lemma NowFixedCovers(pages: Pages, now: DateTime, days: int, cacheOnly: bool, d: Date, h: int)
    requires ValidDateTime(now) && InPythonRange(now.date) && days >= 1
    requires NowFixed(pages, now, days, cacheOnly).Success?
    requires ValidDate(d) && InPythonRange(d) && 0 <= h <= 23
    requires Ordinal(now.date) * 24 + now.hour - 1 <= Ordinal(d) * 24 + h
    requires Ordinal(d) <= Ordinal(now.date) + days
    ensures (FormatDate(d), h) in NowFixedRequests(pages, now, days, cacheOnly)
  {
    var w := NowRange(now, days).value;
    WindowOrder(now, days);
    HourSlotOf(now);
    DateLeIsOrdinalOrder(w.startDate, d);
    DateLeIsOrdinalOrder(d, w.endDate);
    WindowCovers(pages, w, cacheOnly, d, h);
  }

  /** On the example above the corrected now mode does fetch hour 0 of 2025-01-16. */
  lemma NowFixedGetsMidnight(pages: Pages, cacheOnly: bool)
    requires NowFixed(pages, DateTime(Date(2025, 1, 15), 15, 30, 0, None), 1, cacheOnly).Success?
    ensures ("2025-01-16", 0) in NowFixedRequests(pages, DateTime(Date(2025, 1, 15), 15, 30, 0, None), 1, cacheOnly)
  {
    var now := DateTime(Date(2025, 1, 15), 15, 30, 0, None);
    NowExampleWindow();
    SecondDayText();
    assert Ordinal(Date(2025, 1, 16)) == Ordinal(Date(2025, 1, 15)) + 1;
    NowFixedCovers(pages, now, 1, cacheOnly, Date(2025, 1, 16), 0);
  }

  lemma SecondDayText()
    ensures FormatDate(Date(2025, 1, 16)) == "2025-01-16"
  {
    assert Pad(2025, 4) == "2025";
  }
}
