/**
 * The textual forms of times: the XMLTV `YYYYMMDDhhmmss ±ZZZZ` form the
 * converter writes (`strftime('%Y%m%d%H%M%S %z')`), the ISO 8601 form of the
 * listings' `start_at` field, and the `YYYY-MM-DD` form of dates.
 */
module TimeText {
  import opened Wrappers
  import opened CivilTime

  predicate IsDigit(c: char) {
    '0' <= c <= '9'
  }

  predicate AllDigits(s: string) {
    forall i :: 0 <= i < |s| ==> IsDigit(s[i])
  }

  function Pow10(w: nat): (p: nat)
    ensures p >= 1
  {
    if w == 0 then 1 else 10 * Pow10(w - 1)
  }

  function DigitChar(d: int): (c: char)
    requires 0 <= d <= 9
    ensures IsDigit(c)
  {
    ('0' as int + d) as char
  }

  function DigitValue(c: char): int
    requires IsDigit(c)
  {
    c as int - '0' as int
  }

  /** `n` in decimal, zero-padded to `width` digits (`%02d`, `%04d`). */
  function Pad(n: int, width: nat): (s: string)
    requires 0 <= n < Pow10(width)
    ensures |s| == width && AllDigits(s)
  {
    if width == 0 then [] else Pad(n / 10, width - 1) + [DigitChar(n % 10)]
  }

  /** The number a string of decimal digits spells. */
  function Number(s: string): (n: nat)
    requires AllDigits(s)
    ensures n < Pow10(|s|)
  {
    if s == [] then 0 else Number(s[..|s| - 1]) * 10 + DigitValue(s[|s| - 1])
  }

  lemma {:induction false} NumberOfPad(n: int, width: nat)
    requires 0 <= n < Pow10(width)
    ensures Number(Pad(n, width)) == n
  {
    if width > 0 {
      var s := Pad(n, width);
      assert s[..|s| - 1] == Pad(n / 10, width - 1);
      NumberOfPad(n / 10, width - 1);
    }
  }

  lemma AllDigitsAppend(a: string, b: string)
    ensures AllDigits(a + b) <==> AllDigits(a) && AllDigits(b)
  {
    assert forall i :: 0 <= i < |a| ==> (a + b)[i] == a[i];
    assert forall i :: 0 <= i < |b| ==> (a + b)[|a| + i] == b[i];
    if AllDigits(a) && AllDigits(b) {
      forall i | 0 <= i < |a + b| ensures IsDigit((a + b)[i]) {
        if i >= |a| {
          assert (a + b)[i] == b[i - |a|];
        }
      }
    }
  }

  /** The fourteen digits `%Y%m%d%H%M%S` of a time. */
  function XmltvDigits(t: DateTime): (s: string)
    requires ValidDateTime(t) && InPythonRange(t.date)
    ensures |s| == 14 && AllDigits(s)
    ensures Number(s[0..4]) == t.date.year && Number(s[4..6]) == t.date.month
    ensures Number(s[6..8]) == t.date.day && Number(s[8..10]) == t.hour
    ensures Number(s[10..12]) == t.minute && Number(s[12..14]) == t.second
  {
    var y, mo, d := Pad(t.date.year, 4), Pad(t.date.month, 2), Pad(t.date.day, 2);
    var h, mi, se := Pad(t.hour, 2), Pad(t.minute, 2), Pad(t.second, 2);
    FieldsJoined(y, mo, d, h, mi, se);
    NumberOfPad(t.date.year, 4);
    NumberOfPad(t.date.month, 2);
    NumberOfPad(t.date.day, 2);
    NumberOfPad(t.hour, 2);
    NumberOfPad(t.minute, 2);
    NumberOfPad(t.second, 2);
    y + mo + d + h + mi + se
  }

  /** Six digit fields of widths 4, 2, 2, 2, 2, 2 written back to back, and where each lies. */
  lemma FieldsJoined(y: string, mo: string, d: string, h: string, mi: string, se: string)
    requires |y| == 4 && |mo| == 2 && |d| == 2 && |h| == 2 && |mi| == 2 && |se| == 2
    requires AllDigits(y) && AllDigits(mo) && AllDigits(d) && AllDigits(h) && AllDigits(mi) && AllDigits(se)
    ensures var s := y + mo + d + h + mi + se;
      && |s| == 14 && AllDigits(s)
      && s[0..4] == y && s[4..6] == mo && s[6..8] == d && s[8..10] == h && s[10..12] == mi && s[12..14] == se
  {
    var s := y + mo + d + h + mi + se;
    AllDigitsAppend(y, mo);
    AllDigitsAppend(y + mo, d);
    AllDigitsAppend(y + mo + d, h);
    AllDigitsAppend(y + mo + d + h, mi);
    AllDigitsAppend(y + mo + d + h + mi, se);
    assert s[0..4] == y;
    assert s[4..6] == mo;
    assert s[6..8] == d;
    assert s[8..10] == h;
    assert s[10..12] == mi;
    assert s[12..14] == se;
  }

  /** `n` minutes east of UTC after a `+` sign, west after a `-`. */
  function Signed(sign: char, n: int): int {
    if sign == '-' then -n else n
  }

  /** `%z`: empty for a naive time, otherwise a sign and four digits. */
  function OffsetText(offset: Option<int>): (s: string)
    requires ValidOffset(offset)
    ensures offset.None? ==> s == ""
    ensures offset.Some? ==> |s| == 5 && (s[0] == '-' <==> offset.value < 0) && (s[0] == '+' || s[0] == '-')
    ensures offset.Some? ==> AllDigits(s[1..3]) && AllDigits(s[3..5]) && Number(s[3..5]) < 60
    ensures offset.Some? ==> Signed(s[0], Number(s[1..3]) * 60 + Number(s[3..5])) == offset.value
  {
    match offset
    case None => ""
    case Some(o) =>
      var a := if o < 0 then -o else o;
      var sign := if o < 0 then "-" else "+";
      OffsetFields(sign, a);
      sign + Pad(a / 60, 2) + Pad(a % 60, 2)
  }

  /** A sign, then whole hours and the remaining minutes as two digits each, denotes `a` minutes. */
  lemma OffsetFields(sign: string, a: int)
    requires |sign| == 1 && 0 <= a < 1440
    ensures var s := sign + Pad(a / 60, 2) + Pad(a % 60, 2);
      && |s| == 5 && s[0] == sign[0]
      && AllDigits(s[1..3]) && AllDigits(s[3..5]) && Number(s[3..5]) < 60
      && Number(s[1..3]) * 60 + Number(s[3..5]) == a
  {
    var hh, mm := Pad(a / 60, 2), Pad(a % 60, 2);
    SignThenPairs(sign, hh, mm, sign + hh + mm);
    NumberOfPad(a / 60, 2);
    NumberOfPad(a % 60, 2);
  }

  /** The pieces of a sign followed by two two-character fields. */
  lemma SignThenPairs(sign: string, hh: string, mm: string, s: string)
    requires |sign| == 1 && |hh| == 2 && |mm| == 2 && s == sign + hh + mm
    ensures |s| == 5 && s[0] == sign[0] && s[1..3] == hh && s[3..5] == mm
  {
  }

  /** `dt.strftime('%Y%m%d%H%M%S %z')` as `_format_xmltv_time` writes it. */
  function FormatXmltvTime(t: DateTime): (s: string)
    requires ValidDateTime(t) && InPythonRange(t.date)
    ensures |s| == (if t.offset.Some? then 20 else 15)
    ensures ParseXmltvTime(s) == Some(t)
  {
    var digits, zone := XmltvDigits(t), OffsetText(t.offset);
    var s := digits + " " + zone;
    assert s[..14] == digits;
    assert s[0..4] == digits[0..4] && s[4..6] == digits[4..6] && s[6..8] == digits[6..8];
    assert s[8..10] == digits[8..10] && s[10..12] == digits[10..12] && s[12..14] == digits[12..14];
    if t.offset.Some? then
      assert s[15..] == zone;
      assert s[16..18] == zone[1..3] && s[18..20] == zone[3..5];
      s
    else s
  }

  /** Reads an XMLTV time back; None for text `FormatXmltvTime` cannot produce. */
  function ParseXmltvTime(s: string): Option<DateTime> {
    if |s| != 15 && |s| != 20 then None
    else if !AllDigits(s[..14]) || s[14] != ' ' then None
    else if |s| == 20 && !((s[15] == '+' || s[15] == '-') && AllDigits(s[16..18]) && AllDigits(s[18..20])) then None
    else
      var offset :=
        if |s| == 15 then None
        else if Number(s[18..20]) >= 60 then Some(1440)
        else Some(Signed(s[15], Number(s[16..18]) * 60 + Number(s[18..20])));
      var t := DateTime(Date(Number(s[0..4]), Number(s[4..6]), Number(s[6..8])),
                        Number(s[8..10]), Number(s[10..12]), Number(s[12..14]), offset);
      if ValidDateTime(t) && InPythonRange(t.date) then Some(t) else None
  }

  /** `date.strftime('%Y-%m-%d')`. */
  function FormatDate(d: Date): (s: string)
    requires ValidDate(d) && InPythonRange(d)
    ensures |s| == 10 && s[4] == '-' && s[7] == '-'
    ensures s[0..4] == Pad(d.year, 4) && s[5..7] == Pad(d.month, 2) && s[8..10] == Pad(d.day, 2)
  {
    Pad(d.year, 4) + "-" + Pad(d.month, 2) + "-" + Pad(d.day, 2)
  }

  predicate NoZ(s: string) {
    forall i :: 0 <= i < |s| ==> s[i] != 'Z'
  }

  lemma NoZAppend(a: string, b: string)
    requires NoZ(a) && NoZ(b)
    ensures NoZ(a + b)
  {
    forall i | 0 <= i < |a + b| ensures (a + b)[i] != 'Z' {
      if i >= |a| {
        assert (a + b)[i] == b[i - |a|];
      }
    }
  }

  /** `s.replace('Z', '+00:00')`: every `Z` becomes an explicit zero offset. */
  function ReplaceZ(s: string): (r: string)
    ensures NoZ(r)
    ensures NoZ(s) ==> r == s
  {
    if s == [] then []
    else
      var head := if s[0] == 'Z' then "+00:00" else [s[0]];
      var r := head + ReplaceZ(s[1..]);
      NoZAppend(head, ReplaceZ(s[1..]));
      r
  }

  lemma {:induction false} ReplaceZAppend(a: string, b: string)
    ensures ReplaceZ(a + b) == ReplaceZ(a) + ReplaceZ(b)
  {
    if a != [] {
      var head := if a[0] == 'Z' then "+00:00" else [a[0]];
      assert (a + b)[0] == a[0];
      assert (a + b)[1..] == a[1..] + b;
      calc {
        ReplaceZ(a + b);
        head + ReplaceZ(a[1..] + b);
        { ReplaceZAppend(a[1..], b); }
        head + (ReplaceZ(a[1..]) + ReplaceZ(b));
        (head + ReplaceZ(a[1..])) + ReplaceZ(b);
        ReplaceZ(a) + ReplaceZ(b);
      }
    } else {
      assert a + b == b;
    }
  }

  /** A time of day as `_parse_hh_mm_ss_ff` reads it; `micro` is the fraction in microseconds. */
  datatype Clock = Clock(hour: int, minute: int, second: int, micro: int)

  /**
   * `HH`, `HH:MM`, `HH:MM:SS`, `HH:MM:SS.fff` or `HH:MM:SS.ffffff`; None for
   * any other text.  The separator before the fraction may also be `:`: the
   * field loop of Python 3.7-3.10 goes on after a `:` that follows the
   * seconds and then reads the fraction.  The fields are not range-checked
   * here.
   */
  function ClockOf(t: string): (r: Option<Clock>)
    ensures r.Some? ==> 0 <= r.value.hour < 100 && 0 <= r.value.minute < 100 && 0 <= r.value.second < 100
    ensures r.Some? ==> |t| in {2, 5, 8, 12, 15} && (|t| > 2 ==> t[2] == ':') && (|t| > 5 ==> t[5] == ':')
    ensures r.Some? && |t| > 8 ==> t[8] == '.' || t[8] == ':'
  {
    if |t| < 2 || !AllDigits(t[0..2]) then None
    else if |t| == 2 then Some(Clock(Number(t[0..2]), 0, 0, 0))
    else if t[2] != ':' || |t| < 5 || !AllDigits(t[3..5]) then None
    else if |t| == 5 then Some(Clock(Number(t[0..2]), Number(t[3..5]), 0, 0))
    else if t[5] != ':' || |t| < 8 || !AllDigits(t[6..8]) then None
    else
      var c := Clock(Number(t[0..2]), Number(t[3..5]), Number(t[6..8]), 0);
      if |t| == 8 then Some(c)
      else if (t[8] != '.' && t[8] != ':') || !(|t| == 12 || |t| == 15) || !AllDigits(t[9..]) then None
      else Some(c.(micro := if |t| == 12 then Number(t[9..]) * 1000 else Number(t[9..])))
  }

  /** The index of the first `+` or `-` of `t`, or `|t|` when there is none. */
  function SignAt(t: string): (i: nat)
    ensures i <= |t|
    ensures forall j :: 0 <= j < i ==> t[j] != '+' && t[j] != '-'
    ensures i < |t| ==> t[i] == '+' || t[i] == '-'
  {
    if t == [] || t[0] == '+' || t[0] == '-' then 0 else 1 + SignAt(t[1..])
  }

  /**
   * An offset after its sign: `HH:MM`, `HH:MM:SS` or `HH:MM:SS.ffffff`, in
   * minutes.  None when the text is malformed, when the offset is not
   * strictly below a day, and when it is not a whole number of minutes.
   */
  function OffsetMinutes(z: string): (r: Option<int>)
    ensures r.Some? ==> 0 <= r.value < 1440
  {
    if !(|z| == 5 || |z| == 8 || |z| == 15) then None
    else match ClockOf(z)
      case None => None
      case Some(c) =>
        var seconds := c.hour * 3600 + c.minute * 60 + c.second;
        if c.micro != 0 || seconds % 60 != 0 || seconds >= 86400 then None
        else Some(seconds / 60)
  }

  /**
   * The time part of an ISO date-time: a clock up to the first sign, then
   * an optional signed offset.
   */
  function TimeOf(t: string): Option<(Clock, Option<int>)> {
    var i := SignAt(t);
    match ClockOf(t[..i])
    case None => None
    case Some(c) =>
      if i == |t| then Some((c, None))
      else match OffsetMinutes(t[i + 1..])
        case None => None
        case Some(m) => Some((c, Some(if t[i] == '-' then -m else m)))
  }

  /** `YYYY-MM-DD` at the head of `s`. */
  predicate IsoDate(s: string) {
    |s| >= 10 && AllDigits(s[0..4]) && s[4] == '-' && AllDigits(s[5..7]) && s[7] == '-' && AllDigits(s[8..10])
  }

  /**
   * `datetime.fromisoformat`: a date `YYYY-MM-DD`, alone (midnight, naive)
   * or followed by any one separator character and a time part.  The
   * fraction of a second is read and dropped.
   */
  function ParseIsoDateTime(s: string): (r: Option<DateTime>)
    ensures r.Some? ==> ValidDateTime(r.value) && InPythonRange(r.value.date)
  {
    if !IsoDate(s) then None
    else
      var d := Date(Number(s[0..4]), Number(s[5..7]), Number(s[8..10]));
      var parsed: Option<(Clock, Option<int>)> := if |s| == 10 then Some((Clock(0, 0, 0, 0), None)) else TimeOf(s[11..]);
      match parsed
      case None => None
      case Some((c, offset)) =>
        var t := DateTime(d, c.hour, c.minute, c.second, offset);
        if ValidDateTime(t) && InPythonRange(d) then Some(t) else None
  }

  /** The `start_at` reading of `_parse_programme`: `Z` mapped to `+00:00`, then ISO 8601. */
  function ParseStartAt(s: string): (r: Option<DateTime>)
    ensures NoZ(s) ==> r == ParseIsoDateTime(s)
    ensures r.Some? ==> ValidDateTime(r.value) && InPythonRange(r.value.date)
  {
    ParseIsoDateTime(ReplaceZ(s))
  }

  /** `HH:MM:SS`. */
  function ClockText(t: DateTime): (s: string)
    requires ValidDateTime(t)
    ensures |s| == 8 && s[2] == ':' && s[5] == ':'
    ensures s[0..2] == Pad(t.hour, 2) && s[3..5] == Pad(t.minute, 2) && s[6..8] == Pad(t.second, 2)
  {
    Pad(t.hour, 2) + ":" + Pad(t.minute, 2) + ":" + Pad(t.second, 2)
  }

  /** The `+HH:MM` suffix `isoformat` writes for an aware time. */
  function IsoOffsetText(offset: Option<int>): string
    requires ValidOffset(offset)
  {
    match offset
    case None => ""
    case Some(o) =>
      var a := if o < 0 then -o else o;
      (if o < 0 then "-" else "+") + Pad(a / 60, 2) + ":" + Pad(a % 60, 2)
  }

  /** A lone two-digit field reads back as the hour. */
  lemma ClockOfHour(hh: string)
    requires |hh| == 2 && AllDigits(hh)
    ensures ClockOf(hh) == Some(Clock(Number(hh), 0, 0, 0))
  {
    assert hh[0..2] == hh;
  }

  /** Two two-digit fields joined by `:` read back as their numbers. */
  lemma ClockOfShort(hh: string, mm: string)
    requires |hh| == 2 && |mm| == 2 && AllDigits(hh) && AllDigits(mm)
    ensures ClockOf(hh + ":" + mm) == Some(Clock(Number(hh), Number(mm), 0, 0))
  {
    var t := hh + ":" + mm;
    assert t[0..2] == hh && t[2] == ':' && t[3..5] == mm;
  }

  /** Three two-digit fields joined by `:` read back as their numbers. */
  lemma ClockOfFull(hh: string, mm: string, ss: string)
    requires |hh| == 2 && |mm| == 2 && |ss| == 2 && AllDigits(hh) && AllDigits(mm) && AllDigits(ss)
    ensures ClockOf(hh + ":" + mm + ":" + ss) == Some(Clock(Number(hh), Number(mm), Number(ss), 0))
  {
    var t := hh + ":" + mm + ":" + ss;
    assert t[0..2] == hh && t[2] == ':' && t[3..5] == mm && t[5] == ':' && t[6..8] == ss;
  }

  /** The first sign is at `i` when `i` holds one, or is the end, and nothing before it is one. */
  lemma SignAtIs(t: string, i: nat)
    requires i <= |t| && (i < |t| ==> t[i] == '+' || t[i] == '-')
    requires forall j :: 0 <= j < i ==> t[j] != '+' && t[j] != '-'
    ensures SignAt(t) == i
  {
  }

  /** The `HH:MM` written for `a` minutes reads back as `a` minutes. */
  lemma OffsetMinutesOf(a: int)
    requires 0 <= a < 1440
    ensures OffsetMinutes(Pad(a / 60, 2) + ":" + Pad(a % 60, 2)) == Some(a)
  {
    var hh, mm := Pad(a / 60, 2), Pad(a % 60, 2);
    NumberOfPad(a / 60, 2);
    NumberOfPad(a % 60, 2);
    ClockOfShort(hh, mm);
    var q, r := a / 60, a % 60;
    assert q * 60 + r == a;
    var seconds := q * 3600 + r * 60;
    assert seconds == 60 * a;
    assert seconds % 60 == 0 && seconds / 60 == a;
  }

  /** The `±HH:MM` suffix: a sign, then the hours and minutes of the offset's size. */
  lemma IsoOffsetShape(o: int)
    requires -1440 < o < 1440
    ensures var a, z := (if o < 0 then -o else o), IsoOffsetText(Some(o));
      && |z| == 6 && (z[0] == '-' <==> o < 0) && (z[0] == '+' || z[0] == '-')
      && z[1..] == Pad(a / 60, 2) + ":" + Pad(a % 60, 2)
  {
    var a := if o < 0 then -o else o;
    var sign, rest := (if o < 0 then "-" else "+"), Pad(a / 60, 2) + ":" + Pad(a % 60, 2);
    assert IsoOffsetText(Some(o)) == sign + rest;
  }

  /** The `±HH:MM` suffix `isoformat` writes reads back as the offset. */
  lemma IsoOffsetRoundTrip(clock: string, o: int)
    requires ClockOf(clock).Some? && -1440 < o < 1440
    ensures TimeOf(clock + IsoOffsetText(Some(o))) == Some((ClockOf(clock).value, Some(o)))
  {
    var a := if o < 0 then -o else o;
    var zone := IsoOffsetText(Some(o));
    var t := clock + zone;
    var i := |clock|;
    IsoOffsetShape(o);
    forall j | 0 <= j < i
      ensures t[j] != '+' && t[j] != '-'
    {
      assert t[j] == clock[j];
      ClockHasNoSign(clock, j);
    }
    SignAtIs(t, i);
    assert t[..i] == clock && t[i + 1..] == zone[1..];
    OffsetMinutesOf(a);
  }

  /** A clock text has only digits, `:` and `.` in it. */
  lemma ClockHasNoSign(t: string, j: int)
    requires ClockOf(t).Some? && 0 <= j < |t|
    ensures t[j] != '+' && t[j] != '-'
  {
    if j < 2 {
      assert t[j] == t[0..2][j];
    } else if 2 < j < 5 {
      assert t[j] == t[3..5][j - 3];
    } else if 5 < j < 8 {
      assert t[j] == t[6..8][j - 6];
    } else if 8 < j {
      assert t[j] == t[9..][j - 9];
    }
  }

  /** `dt.isoformat()` for a time with no fraction of a second. */
  function IsoText(t: DateTime): (s: string)
    requires ValidDateTime(t) && InPythonRange(t.date)
  {
    FormatDate(t.date) + "T" + ClockText(t) + IsoOffsetText(t.offset)
  }

  /** The date text `YYYY-MM-DD` spells the date. */
  lemma DateTextOf(d: Date)
    requires ValidDate(d) && InPythonRange(d)
    ensures var s := FormatDate(d); IsoDate(s) && Date(Number(s[0..4]), Number(s[5..7]), Number(s[8..10])) == d
  {
    NumberOfPad(d.year, 4);
    NumberOfPad(d.month, 2);
    NumberOfPad(d.day, 2);
  }

  /** A date, one separator character and a time part read as the date at that time. */
  lemma JoinedReadsBack(d: Date, sep: char, time: string, c: Clock, offset: Option<int>)
    requires ValidDate(d) && InPythonRange(d) && TimeOf(time) == Some((c, offset))
    requires ValidDateTime(DateTime(d, c.hour, c.minute, c.second, offset))
    ensures ParseIsoDateTime(FormatDate(d) + [sep] + time) == Some(DateTime(d, c.hour, c.minute, c.second, offset))
  {
    var date := FormatDate(d);
    var s := date + [sep] + time;
    DateTextOf(d);
    assert s[0..4] == date[0..4] && s[5..7] == date[5..7] && s[8..10] == date[8..10];
    assert s[11..] == time;
  }

  /** A clock text followed by what `isoformat` writes for an offset reads back as both. */
  lemma TimeOfClock(clock: string, offset: Option<int>)
    requires ClockOf(clock).Some? && ValidOffset(offset)
    ensures TimeOf(clock + IsoOffsetText(offset)) == Some((ClockOf(clock).value, offset))
  {
    if offset.Some? {
      IsoOffsetRoundTrip(clock, offset.value);
    } else {
      assert clock + IsoOffsetText(offset) == clock;
      forall j | 0 <= j < |clock|
        ensures clock[j] != '+' && clock[j] != '-'
      {
        ClockHasNoSign(clock, j);
      }
      SignAtIs(clock, |clock|);
      assert clock[..|clock|] == clock;
    }
  }

  /** ISO text written by `isoformat` reads back as the same time. */
  lemma IsoRoundTrip(t: DateTime)
    requires ValidDateTime(t) && InPythonRange(t.date)
    ensures ParseIsoDateTime(IsoText(t)) == Some(t)
  {
    AnySeparator(t, 'T');
    assert IsoText(t) == FormatDate(t.date) + "T" + (ClockText(t) + IsoOffsetText(t.offset));
  }

  /** The character between the date and the time may be any one character. */
  lemma AnySeparator(t: DateTime, sep: char)
    requires ValidDateTime(t) && InPythonRange(t.date)
    ensures ParseIsoDateTime(FormatDate(t.date) + [sep] + (ClockText(t) + IsoOffsetText(t.offset))) == Some(t)
  {
    NumberOfPad(t.hour, 2);
    NumberOfPad(t.minute, 2);
    NumberOfPad(t.second, 2);
    ClockOfFull(Pad(t.hour, 2), Pad(t.minute, 2), Pad(t.second, 2));
    var c := Clock(t.hour, t.minute, t.second, 0);
    assert ClockOf(ClockText(t)) == Some(c);
    TimeOfClock(ClockText(t), t.offset);
    JoinedReadsBack(t.date, sep, ClockText(t) + IsoOffsetText(t.offset), c, t.offset);
  }

  /** A date followed by a separator and no time is rejected. */
  lemma DanglingSeparator(d: Date, sep: char)
    requires ValidDate(d) && InPythonRange(d)
    ensures ParseIsoDateTime(FormatDate(d) + [sep]) == None
  {
    var s := FormatDate(d) + [sep];
    assert s[11..] == [];
  }

  /** A date alone reads as midnight of that date, naive. */
  lemma DateOnlyReadsBack(d: Date)
    requires ValidDate(d) && InPythonRange(d)
    ensures ParseIsoDateTime(FormatDate(d)) == Some(DateTime(d, 0, 0, 0, None))
  {
    var s := FormatDate(d);
    NumberOfPad(d.year, 4);
    NumberOfPad(d.month, 2);
    NumberOfPad(d.day, 2);
    assert s[0..4] == Pad(d.year, 4) && s[5..7] == Pad(d.month, 2) && s[8..10] == Pad(d.day, 2);
  }

  /** A time written to the hour only (`…T20`) reads as that hour, naive. */
  lemma HourOnlyReadsBack(d: Date, hour: int)
    requires ValidDate(d) && InPythonRange(d) && 0 <= hour < 24
    ensures ParseIsoDateTime(FormatDate(d) + "T" + Pad(hour, 2)) == Some(DateTime(d, hour, 0, 0, None))
  {
    var hh := Pad(hour, 2);
    NumberOfPad(hour, 2);
    ClockOfHour(hh);
    var c := Clock(hour, 0, 0, 0);
    TimeOfClock(hh, None);
    assert hh + IsoOffsetText(None) == hh;
    JoinedReadsBack(d, 'T', hh, c, None);
  }

  /** An offset may carry seconds: `+05:30:00` is 330 minutes east. */
  /** A `:` before the fraction reads the same as a `.`. */
  lemma ColonLikeDot(t: string)
    requires |t| > 8
    ensures ClockOf(t[8 := ':']) == ClockOf(t[8 := '.'])
    ensures OffsetMinutes(t[8 := ':']) == OffsetMinutes(t[8 := '.'])
  {
    var a, b := t[8 := ':'], t[8 := '.'];
    assert a[0..2] == b[0..2] && a[2] == b[2] && a[3..5] == b[3..5] && a[5] == b[5] && a[6..8] == b[6..8] && a[9..] == b[9..];
  }

  /** A clock of seconds followed by a `.` or `:` and 3 or 6 digits reads as that clock with the fraction. */
  lemma ClockWithFraction(t: string)
    requires (|t| == 12 || |t| == 15) && ClockOf(t[..8]).Some? && (t[8] == '.' || t[8] == ':') && AllDigits(t[9..])
    ensures ClockOf(t) == Some(ClockOf(t[..8]).value.(micro := if |t| == 12 then Number(t[9..]) * 1000 else Number(t[9..])))
  {
    var u := t[..8];
    assert u[0..2] == t[0..2] && u[2] == t[2] && u[3..5] == t[3..5] && u[5] == t[5] && u[6..8] == t[6..8];
  }

  /**
   * A date, a separator and a clock of seconds followed by `:` and 3 or 6
   * digits read as that date at that second, naive: the same as with `.`.
   */
  lemma ColonFractionReadsBack(d: Date, sep: char, clock: string)
    requires ValidDate(d) && InPythonRange(d)
    requires (|clock| == 12 || |clock| == 15) && clock[8] == ':' && AllDigits(clock[9..])
    requires ClockOf(clock[..8]).Some?
    requires ClockOf(clock[..8]).value.hour < 24 && ClockOf(clock[..8]).value.minute < 60 && ClockOf(clock[..8]).value.second < 60
    ensures var c := ClockOf(clock[..8]).value;
      ParseIsoDateTime(FormatDate(d) + [sep] + clock) == Some(DateTime(d, c.hour, c.minute, c.second, None))
  {
    ClockWithFraction(clock);
    TimeOfClock(clock, None);
    assert clock + IsoOffsetText(None) == clock;
    JoinedReadsBack(d, sep, clock, ClockOf(clock).value, None);
  }

  lemma OffsetWithSeconds()
    ensures OffsetMinutes("05:30:00") == Some(330)
  {
    assert Number("05") == 5 && Number("30") == 30 && Number("00") == 0;
    ClockOfFull("05", "30", "00");
    assert "05:30:00" == "05" + ":" + "30" + ":" + "00";
  }

  /** An offset of a whole day is rejected. */
  lemma OffsetOfADay()
    ensures OffsetMinutes("24:00") == None
  {
    assert Number("24") == 24 && Number("00") == 0;
    ClockOfShort("24", "00");
    assert "24:00" == "24" + ":" + "00";
  }

  lemma DigitsHaveNoZ(s: string)
    requires AllDigits(s)
    ensures NoZ(s)
  {
  }

  lemma IsoTextNoZ(t: DateTime)
    requires ValidDateTime(t) && InPythonRange(t.date) && t.offset.None?
    ensures NoZ(IsoText(t))
  {
    var y, mo, d := Pad(t.date.year, 4), Pad(t.date.month, 2), Pad(t.date.day, 2);
    var h, mi, se := Pad(t.hour, 2), Pad(t.minute, 2), Pad(t.second, 2);
    DigitsHaveNoZ(y);
    DigitsHaveNoZ(mo);
    DigitsHaveNoZ(d);
    DigitsHaveNoZ(h);
    DigitsHaveNoZ(mi);
    DigitsHaveNoZ(se);
    NoZAppend(y, "-");
    NoZAppend(y + "-", mo);
    NoZAppend(y + "-" + mo, "-");
    NoZAppend(y + "-" + mo + "-", d);
    NoZAppend(y + "-" + mo + "-" + d, "T");
    NoZAppend(y + "-" + mo + "-" + d + "T", h);
    NoZAppend(y + "-" + mo + "-" + d + "T" + h, ":");
    NoZAppend(y + "-" + mo + "-" + d + "T" + h + ":", mi);
    NoZAppend(y + "-" + mo + "-" + d + "T" + h + ":" + mi, ":");
    NoZAppend(y + "-" + mo + "-" + d + "T" + h + ":" + mi + ":", se);
    assert IsoText(t) == y + "-" + mo + "-" + d + "T" + h + ":" + mi + ":" + se;
  }

  /** A trailing `Z` after text without one becomes `+00:00`. */
  lemma TrailingZ(head: string)
    requires NoZ(head)
    ensures ReplaceZ(head + "Z") == head + "+00:00"
  {
    assert ReplaceZ("Z") == "+00:00" by {
      assert "Z"[1..] == [];
    }
    ReplaceZAppend(head, "Z");
  }

  /** `+00:00` is what `isoformat` writes for offset zero. */
  lemma UtcOffsetSuffix()
    ensures IsoOffsetText(Some(0)) == "+00:00"
  {
    assert Pad(0, 2) == "00";
  }

  /** A UTC `start_at` written with a trailing `Z` reads as the same time at offset +00:00. */
  lemma ZuluStartAt(t: DateTime)
    requires ValidDateTime(t) && InPythonRange(t.date) && t.offset.None?
    ensures ParseStartAt(IsoText(t) + "Z") == Some(t.(offset := Some(0)))
  {
    var u := t.(offset := Some(0));
    UtcOffsetSuffix();
    assert IsoText(u) == IsoText(t) + "+00:00";
    IsoTextNoZ(t);
    TrailingZ(IsoText(t));
    IsoRoundTrip(u);
  }

  /** A time written to the minute (`…T20:00+01:00`) reads back as that minute. */
  lemma MinuteReadsBack(d: Date, hour: int, minute: int, offset: Option<int>)
    requires ValidDateTime(DateTime(d, hour, minute, 0, offset)) && InPythonRange(d)
    ensures ParseIsoDateTime(FormatDate(d) + "T" + (Pad(hour, 2) + ":" + Pad(minute, 2) + IsoOffsetText(offset))) ==
      Some(DateTime(d, hour, minute, 0, offset))
  {
    var clock := Pad(hour, 2) + ":" + Pad(minute, 2);
    NumberOfPad(hour, 2);
    NumberOfPad(minute, 2);
    ClockOfShort(Pad(hour, 2), Pad(minute, 2));
    var c := Clock(hour, minute, 0, 0);
    TimeOfClock(clock, offset);
    JoinedReadsBack(d, 'T', clock + IsoOffsetText(offset), c, offset);
  }

  /** A date, `T` and a clock written to the minute contain no `Z`. */
  lemma MinuteTextNoZ(d: Date, hour: int, minute: int)
    requires ValidDate(d) && InPythonRange(d) && 0 <= hour < 24 && 0 <= minute < 60
    ensures NoZ(FormatDate(d) + "T" + (Pad(hour, 2) + ":" + Pad(minute, 2)))
  {
    var y, mo, da, hh, mm := Pad(d.year, 4), Pad(d.month, 2), Pad(d.day, 2), Pad(hour, 2), Pad(minute, 2);
    DigitsHaveNoZ(y);
    DigitsHaveNoZ(mo);
    DigitsHaveNoZ(da);
    DigitsHaveNoZ(hh);
    DigitsHaveNoZ(mm);
    NoZAppend(y, "-");
    NoZAppend(y + "-", mo);
    NoZAppend(y + "-" + mo, "-");
    NoZAppend(y + "-" + mo + "-", da);
    NoZAppend(hh, ":");
    NoZAppend(hh + ":", mm);
    NoZAppend(FormatDate(d), "T");
    NoZAppend(FormatDate(d) + "T", hh + ":" + mm);
  }

  /** A `start_at` written to the minute with a `Z` (`2025-01-15T20:00Z`) reads as that minute at offset zero. */
  lemma ShortZuluStartAt(d: Date, hour: int, minute: int)
    requires ValidDate(d) && InPythonRange(d) && 0 <= hour < 24 && 0 <= minute < 60
    ensures ParseStartAt(FormatDate(d) + "T" + (Pad(hour, 2) + ":" + Pad(minute, 2)) + "Z") ==
      Some(DateTime(d, hour, minute, 0, Some(0)))
  {
    var head := FormatDate(d) + "T" + (Pad(hour, 2) + ":" + Pad(minute, 2));
    MinuteTextNoZ(d, hour, minute);
    TrailingZ(head);
    UtcOffsetSuffix();
    MinuteReadsBack(d, hour, minute, Some(0));
    assert head + "+00:00" == FormatDate(d) + "T" + (Pad(hour, 2) + ":" + Pad(minute, 2) + "+00:00");
  }
}
