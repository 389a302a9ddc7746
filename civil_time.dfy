/**
 * Calendar arithmetic behind the converter's times and the "now" window.
 *
 * A `DateTime` is what Python's `datetime` holds: local calendar fields and,
 * when the value is timezone-aware, a fixed UTC offset (here in minutes).
 * Microseconds are not kept: the converter zeroes them in stop times and never
 * prints them, so no output depends on them.
 */
module CivilTime {
  import opened Wrappers

  /** A proleptic Gregorian calendar date, as Python's `date`. */
  datatype Date = Date(year: int, month: int, day: int)

  predicate IsLeapYear(y: int) {
    y % 4 == 0 && (y % 100 != 0 || y % 400 == 0)
  }

  function DaysInMonth(y: int, m: int): (n: int)
    requires 1 <= m <= 12
    ensures 28 <= n <= 31
    ensures n == 29 <==> m == 2 && IsLeapYear(y)
  {
    if m == 2 then (if IsLeapYear(y) then 29 else 28)
    else if m == 4 || m == 6 || m == 9 || m == 11 then 30
    else 31
  }

  predicate ValidDate(d: Date) {
    1 <= d.month <= 12 && 1 <= d.day <= DaysInMonth(d.year, d.month)
  }

  /** The years Python's `datetime` can represent (MINYEAR .. MAXYEAR). */
  predicate InPythonRange(d: Date) {
    1 <= d.year <= 9999
  }

  /** Days in the months before month `m` of a common year. */
  const DAYS_BEFORE_MONTH: seq<int> := [0, 31, 59, 90, 120, 151, 181, 212, 243, 273, 304, 334]

  function DaysBeforeMonth(y: int, m: int): int
    requires 1 <= m <= 12
  {
    DAYS_BEFORE_MONTH[m - 1] + (if m > 2 && IsLeapYear(y) then 1 else 0)
  }

  /** Days in the years 1 .. y-1 (negative for years before 1). */
  function DaysBeforeYear(y: int): int {
    var p := y - 1;
    365 * p + p / 4 - p / 100 + p / 400
  }

  /** Day number with 0001-01-01 as day 1, as Python's `date.toordinal()`. */
  function Ordinal(d: Date): int
    requires ValidDate(d)
  {
    DaysBeforeYear(d.year) + DaysBeforeMonth(d.year, d.month) + d.day
  }

  /** One more day moves the floor of p / k up exactly when p + 1 is a multiple of k. */
  lemma FloorStep4(p: int)
    ensures (p + 1) / 4 == p / 4 + (if (p + 1) % 4 == 0 then 1 else 0)
  {
  }

  lemma FloorStep100(p: int)
    ensures (p + 1) / 100 == p / 100 + (if (p + 1) % 100 == 0 then 1 else 0)
  {
  }

  lemma FloorStep400(p: int)
    ensures (p + 1) / 400 == p / 400 + (if (p + 1) % 400 == 0 then 1 else 0)
  {
  }

  lemma YearLength(y: int)
    ensures DaysBeforeYear(y + 1) == DaysBeforeYear(y) + (if IsLeapYear(y) then 366 else 365)
  {
    FloorStep4(y - 1);
    FloorStep100(y - 1);
    FloorStep400(y - 1);
  }

  lemma MonthLength(y: int, m: int)
    requires 1 <= m < 12
    ensures DaysBeforeMonth(y, m + 1) == DaysBeforeMonth(y, m) + DaysInMonth(y, m)
  {
  }

  lemma {:induction false} DaysBeforeYearMono(a: int, b: int)
    requires a <= b
    ensures DaysBeforeYear(a) <= DaysBeforeYear(b)
    decreases b - a
  {
    if a < b {
      YearLength(a);
      DaysBeforeYearMono(a + 1, b);
    }
  }

  /** The ordinal of a date falls inside its own year. */
  lemma OrdinalWithinYear(d: Date)
    requires ValidDate(d)
    ensures DaysBeforeYear(d.year) < Ordinal(d) <= DaysBeforeYear(d.year + 1)
  {
    YearLength(d.year);
    if d.month < 12 {
      assert DaysBeforeMonth(d.year, d.month) + DaysInMonth(d.year, d.month) <= DaysBeforeMonth(d.year, 12);
    }
  }

  /** A date between two dates Python can hold is one Python can hold. */
  lemma BetweenInRange(lo: Date, d: Date, hi: Date)
    requires ValidDate(lo) && ValidDate(d) && ValidDate(hi)
    requires InPythonRange(lo) && InPythonRange(hi)
    requires Ordinal(lo) <= Ordinal(d) <= Ordinal(hi)
    ensures InPythonRange(d)
  {
    OrdinalWithinYear(lo);
    OrdinalWithinYear(d);
    OrdinalWithinYear(hi);
    if d.year < 1 {
      DaysBeforeYearMono(d.year + 1, lo.year);
    } else if d.year > 9999 {
      DaysBeforeYearMono(hi.year + 1, d.year);
    }
  }

  /** The ordinal of 9999-12-31, Python's `date.max`. */
  const MAX_ORDINAL: int := 3652059

  lemma InRangeOrdinal(d: Date)
    requires ValidDate(d) && InPythonRange(d)
    ensures 1 <= Ordinal(d) <= MAX_ORDINAL
  {
    OrdinalWithinYear(d);
    DaysBeforeYearMono(1, d.year);
    DaysBeforeYearMono(d.year + 1, 10000);
  }

  /** The years Python can hold are exactly the day numbers 1 .. MAX_ORDINAL. */
  lemma OrdinalInRange(d: Date)
    requires ValidDate(d)
    ensures InPythonRange(d) <==> 1 <= Ordinal(d) <= MAX_ORDINAL
  {
    OrdinalWithinYear(d);
    if d.year < 1 {
      DaysBeforeYearMono(d.year + 1, 1);
    } else if d.year > 9999 {
      DaysBeforeYearMono(10000, d.year);
    } else {
      InRangeOrdinal(d);
    }
  }

  /** Python's `date` comparison `a <= b`: by year, then month, then day. */
  predicate DateLe(a: Date, b: Date) {
    a.year < b.year || (a.year == b.year && (a.month < b.month || (a.month == b.month && a.day <= b.day)))
  }

  /** A date that comes first field by field has the smaller day number. */
  lemma EarlierDateSmallerOrdinal(a: Date, b: Date)
    requires ValidDate(a) && ValidDate(b) && DateLe(a, b) && a != b
    ensures Ordinal(a) < Ordinal(b)
  {
    OrdinalWithinYear(a);
    OrdinalWithinYear(b);
    if a.year < b.year {
      DaysBeforeYearMono(a.year + 1, b.year);
    } else if a.month < b.month {
      assert DaysBeforeMonth(a.year, a.month) + DaysInMonth(a.year, a.month) <= DaysBeforeMonth(a.year, b.month);
    }
  }

  /** Comparing the fields agrees with comparing the day numbers. */
  lemma DateLeIsOrdinalOrder(a: Date, b: Date)
    requires ValidDate(a) && ValidDate(b)
    ensures DateLe(a, b) <==> Ordinal(a) <= Ordinal(b)
    ensures Ordinal(a) == Ordinal(b) <==> a == b
  {
    if a != b {
      if DateLe(a, b) {
        EarlierDateSmallerOrdinal(a, b);
      } else {
        EarlierDateSmallerOrdinal(b, a);
      }
    }
  }

  /** Python's `date.max`. */
  const MAX_DATE: Date := Date(9999, 12, 31)

  lemma MaxDateOrdinal()
    ensures ValidDate(MAX_DATE) && InPythonRange(MAX_DATE) && Ordinal(MAX_DATE) == MAX_ORDINAL
  {
  }

  /** The day after `d`: what `d + timedelta(days=1)` gives. */
  function NextDay(d: Date): (r: Date)
    requires ValidDate(d)
    ensures ValidDate(r) && Ordinal(r) == Ordinal(d) + 1
  {
    if d.day < DaysInMonth(d.year, d.month) then d.(day := d.day + 1)
    else if d.month < 12 then
      MonthLength(d.year, d.month);
      Date(d.year, d.month + 1, 1)
    else
      YearLength(d.year);
      Date(d.year + 1, 1, 1)
  }

  /** Every date Python can hold is at most `date.max`. */
  lemma UpToMaxDate(d: Date)
    requires ValidDate(d) && InPythonRange(d)
    ensures DateLe(d, MAX_DATE)
  {
  }

  /** Below `date.max`, the next day is still one Python can hold. */
  lemma NextDayInRange(d: Date)
    requires ValidDate(d) && InPythonRange(d) && d != MAX_DATE
    ensures InPythonRange(NextDay(d))
  {
  }

  /** The day before `d`: what `d - timedelta(days=1)` gives. */
  function PrevDay(d: Date): (r: Date)
    requires ValidDate(d)
    ensures ValidDate(r) && Ordinal(r) == Ordinal(d) - 1
  {
    if d.day > 1 then d.(day := d.day - 1)
    else if d.month > 1 then
      MonthLength(d.year, d.month - 1);
      Date(d.year, d.month - 1, DaysInMonth(d.year, d.month - 1))
    else
      YearLength(d.year - 1);
      Date(d.year - 1, 12, 31)
  }

  /** `d + timedelta(days=k)`, one day at a time. */
  function AddDays(d: Date, k: int): (r: Date)
    requires ValidDate(d)
    ensures ValidDate(r) && Ordinal(r) == Ordinal(d) + k
    decreases if k >= 0 then k else -k
  {
    if k == 0 then d
    else if k > 0 then AddDays(NextDay(d), k - 1)
    else AddDays(PrevDay(d), k + 1)
  }

  /** A Python `datetime`: naive when `offset` is None, otherwise aware with
      a fixed offset from UTC in minutes. */
  datatype DateTime = DateTime(date: Date, hour: int, minute: int, second: int, offset: Option<int>)

  predicate ValidOffset(offset: Option<int>) {
    offset.Some? ==> -1440 < offset.value < 1440
  }

  predicate ValidDateTime(t: DateTime) {
    && ValidDate(t.date)
    && 0 <= t.hour < 24 && 0 <= t.minute < 60 && 0 <= t.second < 60
    && ValidOffset(t.offset)
  }

  /** Seconds on the local wall clock since the start of day 0. */
  function LocalSeconds(t: DateTime): int
    requires ValidDate(t.date)
  {
    Ordinal(t.date) * 86400 + t.hour * 3600 + t.minute * 60 + t.second
  }

  /** The instant an aware `DateTime` denotes, in seconds on the UTC clock. */
  function UtcSeconds(t: DateTime): int
    requires ValidDate(t.date) && t.offset.Some?
  {
    LocalSeconds(t) - 60 * t.offset.value
  }

  /** `t + timedelta(minutes=n)` in `t`'s own fixed offset. */
  function AddMinutes(t: DateTime, n: int): (r: DateTime)
    requires ValidDateTime(t)
    ensures ValidDateTime(r) && r.offset == t.offset && r.second == t.second
    ensures LocalSeconds(r) == LocalSeconds(t) + 60 * n
  {
    var total := t.hour * 60 + t.minute + n;
    var rem := total % 1440;
    DateTime(AddDays(t.date, total / 1440), rem / 60, rem % 60, t.second, t.offset)
  }

  /** The same instant on the UTC clock. */
  function ToUtc(t: DateTime): (u: DateTime)
    requires ValidDateTime(t) && t.offset.Some?
    ensures ValidDateTime(u) && u.offset == Some(0) && UtcSeconds(u) == UtcSeconds(t)
  {
    AddMinutes(t, -t.offset.value).(offset := Some(0))
  }

  /**
   * A time `datetime.fromtimestamp(ts, tz)` can build: for an aware time the
   * UTC datetime is made first and then moved to the offset, so the instant
   * must fall within day 1 .. `date.max` on the UTC clock and the local date
   * within years 1..9999.
   */
  predicate Representable(t: DateTime)
    requires ValidDateTime(t)
  {
    InPythonRange(t.date) && (t.offset.Some? ==> 86400 <= UtcSeconds(t) < (MAX_ORDINAL + 1) * 86400)
  }

  /** For an aware time: representable iff both its local date and its date on the UTC clock lie in years 1..9999. */
  lemma RepresentableUtc(t: DateTime)
    requires ValidDateTime(t) && t.offset.Some?
    ensures Representable(t) <==> InPythonRange(t.date) && InPythonRange(ToUtc(t).date)
  {
    OrdinalInRange(ToUtc(t).date);
  }

  /**
   * `0001-01-01T00:10+01:00` plus 30 minutes: the wall clock stays in year 1,
   * but the instant is in year 0 on the UTC clock, which `fromtimestamp`
   * refuses.
   */
  lemma YearZeroStop(start: DateTime)
    requires start.date.year == 1 && start.date.month == 1 && start.date.day == 1
    requires start.hour == 0 && start.minute == 10 && start.second == 0 && start.offset == Some(60)
    ensures InPythonRange(StopTime(start, 30).date) && !Representable(StopTime(start, 30))
    ensures !InPythonRange(ToUtc(StopTime(start, 30)).date)
  {
    var stop := StopTime(start, 30);
    assert Ordinal(start.date) == 1;
    OrdinalInRange(stop.date);
    RepresentableUtc(stop);
  }

  /** The mirror case: `9999-12-31T23:50-01:00` plus 5 minutes is in year 10000 on the UTC clock. */
  lemma YearTenThousandStop(start: DateTime)
    requires start.date == MAX_DATE
    requires start.hour == 23 && start.minute == 50 && start.second == 0 && start.offset == Some(-60)
    ensures InPythonRange(StopTime(start, 5).date) && !Representable(StopTime(start, 5))
    ensures !InPythonRange(ToUtc(StopTime(start, 5)).date)
  {
    var stop := StopTime(start, 5);
    MaxDateOrdinal();
    OrdinalInRange(stop.date);
    RepresentableUtc(stop);
  }

  /**
   * The stop time of a programme: its start with seconds (and microseconds)
   * set to zero, plus `duration` minutes, in the start's own offset.  For a
   * naive start the source goes through the local clock; this model adds on
   * the wall clock and so ignores daylight-saving jumps.
   */
  function StopTime(start: DateTime, duration: int): (r: DateTime)
    requires ValidDateTime(start)
    ensures ValidDateTime(r) && r.offset == start.offset && r.second == 0
    ensures LocalSeconds(r) == LocalSeconds(start) - start.second + 60 * duration
  {
    AddMinutes(start.(second := 0), duration)
  }

  /** A programme of at least one minute stops strictly after it starts. */
  lemma StopAfterStart(start: DateTime, duration: int)
    requires ValidDateTime(start) && start.offset.Some? && duration >= 1
    ensures UtcSeconds(StopTime(start, duration)) > UtcSeconds(start)
    ensures UtcSeconds(StopTime(start, duration)) - UtcSeconds(start) <= 60 * duration
  {
  }

  /**
   * A zero-minute programme that starts part-way through a minute stops
   * before it starts: the stop time is measured from the truncated start.
   */
  lemma ZeroDurationStopsEarly()
    ensures var start := DateTime(Date(2025, 1, 15), 20, 0, 30, Some(0));
            UtcSeconds(StopTime(start, 0)) < UtcSeconds(start)
  {
  }
}
