/**
  Calendar dates as day numbers (days since 1970-01-01, numpy's `datetime64[D]` integer view) and
  the text forms the application produces: `strftime("%Y-%m-%d")` for dates and
  `datetime.isoformat()` for the current time.
*/
module Dates {
  import opened Wrappers
  import opened Text

  /** A proleptic Gregorian calendar date. */
  datatype Date = Date(year: int, month: int, day: int)

  /** A naive local date and time as `datetime.now()` returns it. */
  datatype DateTime = DateTime(date: Date, hour: int, minute: int, second: int, microsecond: int)

  predicate IsLeapYear(y: int)
  {
    y % 4 == 0 && (y % 100 != 0 || y % 400 == 0)
  }

  function DaysInMonth(y: int, m: int): int
    requires 1 <= m <= 12
  {
    if m == 2 then (if IsLeapYear(y) then 29 else 28)
    else if m == 4 || m == 6 || m == 9 || m == 11 then 30
    else 31
  }

  /** The dates Python's `datetime.date` can represent. */
  predicate ValidDate(d: Date)
  {
    1 <= d.year <= 9999 && 1 <= d.month <= 12 && 1 <= d.day <= DaysInMonth(d.year, d.month)
  }

  predicate ValidDateTime(t: DateTime)
  {
    ValidDate(t.date) && 0 <= t.hour < 24 && 0 <= t.minute < 60 && 0 <= t.second < 60
    && 0 <= t.microsecond < 1000000
  }

  /** Days from 0000-03-01 to the first of March of year `y` (years counted from March, as in Hinnant's algorithm). */
  function MarchYearStart(y: int): int
  {
    var era := y / 400;
    var yoe := y - era * 400;
    era * 146097 + yoe * 365 + yoe / 4 - yoe / 100
  }

  /** Days from the first of March to the first of the `mp`-th month after it. */
  function MonthOffset(mp: int): int
  {
    (153 * mp + 2) / 5
  }

  /** The day number of a civil date (days since 1970-01-01). */
  function DaysFromCivil(d: Date): int
  {
    var y := if d.month <= 2 then d.year - 1 else d.year;
    var mp := (d.month + 9) % 12;
    MarchYearStart(y) + MonthOffset(mp) + d.day - 1 - 719468
  }

  /** The civil date of a day number. */
  function CivilFromDays(z: int): Date
  {
    var z' := z + 719468;
    var era := z' / 146097;
    var doe := z' - era * 146097;
    var yoe := (doe - doe / 1460 + doe / 36524 - doe / 146096) / 365;
    var doy := doe - (365 * yoe + yoe / 4 - yoe / 100);
    var mp := (5 * doy + 2) / 153;
    var day := doy - (153 * mp + 2) / 5 + 1;
    var month := if mp < 10 then mp + 3 else mp - 9;
    Date(if month <= 2 then yoe + era * 400 + 1 else yoe + era * 400, month, day)
  }

  /** 1970-01-01 is day 0, and day 0 is 1970-01-01. */
  lemma Epoch()
    ensures DaysFromCivil(Date(1970, 1, 1)) == 0
    ensures CivilFromDays(0) == Date(1970, 1, 1)
  {
    assert 719468 / 146097 == 4;
    assert 135080 / 1460 == 92 && 135080 / 36524 == 3 && 135080 / 146096 == 0;
    assert 134991 / 365 == 369;
    assert 369 / 4 == 92 && 369 / 100 == 3;
    assert 1532 / 153 == 10 && 1532 / 5 == 306;
    assert 1969 / 400 == 4;
  }

  /** `n` written with exactly `width` decimal digits, zero padded (`%0<width>d`, truncated to its last digits). */
  function PadDigits(n: nat, width: nat): (r: string)
    ensures |r| == width
    ensures forall i :: 0 <= i < |r| ==> '0' <= r[i] <= '9'
  {
    if width == 0 then "" else PadDigits(n / 10, width - 1) + [('0' as int + n % 10) as char]
  }

  /** `date.strftime("%Y-%m-%d")` for years 1000 to 9999, and its `%04d` analogue for earlier years. */
  function FormatDate(d: Date): (r: string)
    requires ValidDate(d)
    ensures |r| == 10 && r[4] == '-' && r[7] == '-'
    ensures forall i :: 0 <= i < |r| ==> r[i] == '-' || '0' <= r[i] <= '9'
  {
    PadDigits(d.year, 4) + "-" + PadDigits(d.month, 2) + "-" + PadDigits(d.day, 2)
  }

  /** The time part of `datetime.isoformat()`: `HH:MM:SS`, followed by `.ffffff` when there are microseconds. */
  function ClockText(t: DateTime): (r: string)
    requires ValidDateTime(t)
    ensures |r| >= 8
    ensures forall i :: 0 <= i < |r| ==> r[i] == ':' || r[i] == '.' || '0' <= r[i] <= '9'
  {
    PadDigits(t.hour, 2) + ":" + PadDigits(t.minute, 2) + ":" + PadDigits(t.second, 2)
    + (if t.microsecond == 0 then "" else "." + PadDigits(t.microsecond, 6))
  }

  /** `datetime.isoformat()` of a naive date and time: `YYYY-MM-DDTHH:MM:SS[.ffffff]`. */
  function IsoFormat(t: DateTime): string
    requires ValidDateTime(t)
  {
    FormatDate(t.date) + "T" + ClockText(t)
  }

  /** The first ten characters of an ISO timestamp are its `YYYY-MM-DD` date. */
  lemma IsoFormatDatePrefix(t: DateTime)
    requires ValidDateTime(t)
    ensures |IsoFormat(t)| >= 10 && IsoFormat(t)[..10] == FormatDate(t.date)
  {
    var d := FormatDate(t.date);
    var rest := IsoFormat(t)[10..];
    assert IsoFormat(t) == d + (IsoFormat(t)[10..]);
  }

  // ---------------------------------------------------------------------------------------------
  // Day arithmetic (`date + timedelta(days=n)`)

  /** The first of March of `y` is 365 or 366 days after that of `y - 1`; 366 exactly when February of `y` has 29 days. */
  lemma MarchYearLength(y: int)
    ensures MarchYearStart(y) - MarchYearStart(y - 1) == if IsLeapYear(y) then 366 else 365
  {
    var era := y / 400;
    var k := y - era * 400;
    if k == 0 {
      EraStartYearLength(era);
    } else {
      InEraYearLength(era, k);
    }
  }

  /** The year before a multiple of 400 is the last of its era: 146097 - 366 days after the era starts. */
  lemma EraStartYearLength(era: int)
    ensures MarchYearStart(era * 400) - MarchYearStart(era * 400 - 1) == 366
    ensures IsLeapYear(era * 400)
  {
    MarchYearStartInEra(era, 0);
    MarchYearStartInEra(era - 1, 399);
    assert era * 400 - 1 == (era - 1) * 400 + 399;
    LeapInEra(era, 0);
  }

  lemma InEraYearLength(era: int, k: int)
    requires 0 < k < 400
    ensures var y := era * 400 + k;
      MarchYearStart(y) - MarchYearStart(y - 1) == if IsLeapYear(y) then 366 else 365
  {
    MarchYearStartInEra(era, k);
    MarchYearStartInEra(era, k - 1);
    QuarterCenturySteps(k);
    LeapInEra(era, k);
  }

  /** Year `k` of an era starts `k * 365` days plus its leap days after the era does. */
  lemma MarchYearStartInEra(era: int, k: int)
    requires 0 <= k < 400
    ensures MarchYearStart(era * 400 + k) == era * 146097 + k * 365 + k / 4 - k / 100
  {
    assert (era * 400 + k) / 400 == era;
  }

  /** Whether year `k` of an era is a leap year depends on `k` alone. */
  lemma LeapInEra(era: int, k: int)
    requires 0 <= k < 400
    ensures IsLeapYear(era * 400 + k) <==> k % 4 == 0 && (k % 100 != 0 || k == 0)
  {
    var y := era * 400 + k;
    var c := era * 4;
    var q := c * 25;
    assert y == 100 * c + k && y == 4 * q + k;
    ShiftedRemainders(era, c, q, k);
  }

  /** Adding a multiple of the divisor keeps the remainder. */
  lemma ShiftedRemainders(era: int, c: int, q: int, k: int)
    requires 0 <= k < 400
    ensures (400 * era + k) % 400 == k
    ensures (100 * c + k) % 100 == k % 100
    ensures (4 * q + k) % 4 == k % 4
  {
    Shift400(era, k);
    Shift100(c, k);
    Shift4(q, k);
  }

  /** Adding a multiple of 400, of 100 or of 4 leaves the remainder by it alone. */
  lemma Shift400(t: int, k: int)
    requires 0 <= k < 400
    ensures (400 * t + k) % 400 == k
  {
  }

  lemma Shift100(t: int, k: int)
    ensures (100 * t + k) % 100 == k % 100
  {
  }

  lemma Shift4(t: int, k: int)
    ensures (4 * t + k) % 4 == k % 4
  {
  }

  /** How the quotients by 4 and by 100 change from `k - 1` to `k` within an era. */
  lemma QuarterCenturySteps(k: int)
    requires 0 < k < 400
    ensures k / 4 - (k - 1) / 4 == if k % 4 == 0 then 1 else 0
    ensures k / 100 - (k - 1) / 100 == if k % 100 == 0 then 1 else 0
    ensures k % 100 == 0 ==> k % 4 == 0
  {
  }

  lemma MonthOffsets()
    ensures MonthOffset(0) == 0 && MonthOffset(1) == 31 && MonthOffset(2) == 61 && MonthOffset(3) == 92
    ensures MonthOffset(4) == 122 && MonthOffset(5) == 153 && MonthOffset(6) == 184 && MonthOffset(7) == 214
    ensures MonthOffset(8) == 245 && MonthOffset(9) == 275 && MonthOffset(10) == 306 && MonthOffset(11) == 337
  {
  }

  /** The calendar day after `d`. */
  function NextDay(d: Date): Date
    requires ValidDate(d)
  {
    if d.day < DaysInMonth(d.year, d.month) then Date(d.year, d.month, d.day + 1)
    else if d.month < 12 then Date(d.year, d.month + 1, 1)
    else Date(d.year + 1, 1, 1)
  }

  /** The calendar day before `d`. */
  function PrevDay(d: Date): Date
    requires ValidDate(d)
  {
    if d.day > 1 then Date(d.year, d.month, d.day - 1)
    else if d.month > 1 then Date(d.year, d.month - 1, DaysInMonth(d.year, d.month - 1))
    else Date(d.year - 1, 12, 31)
  }

  /** Days from the first of March to the first of month `m` in the March-based year. */
  function MonthStartTable(m: int): int
  {
    if m == 1 then 306 else if m == 2 then 337 else if m == 3 then 0 else if m == 4 then 31
    else if m == 5 then 61 else if m == 6 then 92 else if m == 7 then 122 else if m == 8 then 153
    else if m == 9 then 184 else if m == 10 then 214 else if m == 11 then 245 else 275
  }

  /** The day number split into March-based year start, month start and day of month. */
  lemma DaysFromCivilSplit(d: Date)
    requires 1 <= d.month <= 12
    ensures DaysFromCivil(d)
      == MarchYearStart(if d.month <= 2 then d.year - 1 else d.year) + MonthStartTable(d.month) + d.day - 1 - 719468
  {
    MonthOffsets();
    var mp := (d.month + 9) % 12;
    assert mp == if d.month <= 2 then d.month + 9 else d.month - 3;
  }

  /** The next day of the same month has the next day number. */
  lemma SameMonthStep(y: int, m: int, day: int)
    requires 1 <= m <= 12
    ensures DaysFromCivil(Date(y, m, day + 1)) == DaysFromCivil(Date(y, m, day)) + 1
  {
    DaysFromCivilSplit(Date(y, m, day));
    DaysFromCivilSplit(Date(y, m, day + 1));
  }

  /** The first of the next month follows the last day of a month other than December. */
  lemma MonthStep(y: int, m: int)
    requires 1 <= m < 12
    ensures DaysFromCivil(Date(y, m + 1, 1)) == DaysFromCivil(Date(y, m, DaysInMonth(y, m))) + 1
  {
    DaysFromCivilSplit(Date(y, m, DaysInMonth(y, m)));
    DaysFromCivilSplit(Date(y, m + 1, 1));
    if m == 2 {
      MarchYearLength(y);
    }
  }

  /** The first of January follows the last of December. */
  lemma YearStep(y: int)
    ensures DaysFromCivil(Date(y + 1, 1, 1)) == DaysFromCivil(Date(y, 12, 31)) + 1
  {
    DaysFromCivilSplit(Date(y, 12, 31));
    DaysFromCivilSplit(Date(y + 1, 1, 1));
  }

  /** The next day has the next day number, and stays a valid date short of the end of year 9999. */
  lemma NextDayNumber(d: Date)
    requires ValidDate(d)
    ensures DaysFromCivil(NextDay(d)) == DaysFromCivil(d) + 1
    ensures d != Date(9999, 12, 31) ==> ValidDate(NextDay(d))
  {
    if d.day < DaysInMonth(d.year, d.month) {
      NextDayInMonth(d);
    } else if d.month < 12 {
      NextDayNewMonth(d);
    } else {
      NextDayNewYear(d);
    }
  }

  lemma NextDayInMonth(d: Date)
    requires ValidDate(d) && d.day < DaysInMonth(d.year, d.month)
    ensures DaysFromCivil(NextDay(d)) == DaysFromCivil(d) + 1 && ValidDate(NextDay(d))
  {
    assert NextDay(d) == Date(d.year, d.month, d.day + 1);
    SameMonthStep(d.year, d.month, d.day);
  }

  lemma NextDayNewMonth(d: Date)
    requires ValidDate(d) && d.day == DaysInMonth(d.year, d.month) && d.month < 12
    ensures DaysFromCivil(NextDay(d)) == DaysFromCivil(d) + 1 && ValidDate(NextDay(d))
  {
    assert NextDay(d) == Date(d.year, d.month + 1, 1);
    assert d == Date(d.year, d.month, DaysInMonth(d.year, d.month));
    MonthStep(d.year, d.month);
  }

  lemma NextDayNewYear(d: Date)
    requires ValidDate(d) && d.day == DaysInMonth(d.year, d.month) && d.month == 12
    ensures DaysFromCivil(NextDay(d)) == DaysFromCivil(d) + 1
    ensures d.year < 9999 ==> ValidDate(NextDay(d))
  {
    assert NextDay(d) == Date(d.year + 1, 1, 1) && d == Date(d.year, 12, 31);
    YearStep(d.year);
  }

  /** The previous day has the previous day number, and stays a valid date after the first day of year 1. */
  lemma PrevDayNumber(d: Date)
    requires ValidDate(d)
    ensures DaysFromCivil(PrevDay(d)) == DaysFromCivil(d) - 1
    ensures d != Date(1, 1, 1) ==> ValidDate(PrevDay(d))
  {
    var p := PrevDay(d);
    if d == Date(1, 1, 1) {
      assert p == Date(0, 12, 31);
      YearStep(0);
    } else {
      PrevDayValid(d);
      NextDayNumber(p);
    }
  }

  /** Short of the first day of year 1, the previous day is a valid date whose next day is `d`. */
  lemma PrevDayValid(d: Date)
    requires ValidDate(d) && d != Date(1, 1, 1)
    ensures ValidDate(PrevDay(d)) && NextDay(PrevDay(d)) == d
  {
  }

  /** The first of March moves forward at least 365 days a year. */
  lemma {:induction false} MarchYearStartGrows(a: int, b: int)
    requires a <= b
    ensures MarchYearStart(a) + 365 * (b - a) <= MarchYearStart(b)
    decreases b - a
  {
    if a < b {
      MarchYearLength(b);
      MarchYearStartGrows(a, b - 1);
    }
  }

  /** The day number of 9999-12-31, the last date Python can represent. */
  const MaxDayNumber: int := 2932896

  lemma MaxDayNumberIsLastDate()
    ensures DaysFromCivil(Date(9999, 12, 31)) == MaxDayNumber
  {
    DaysFromCivilSplit(Date(9999, 12, 31));
    assert 9999 / 400 == 24 && 399 / 4 == 99 && 399 / 100 == 3;
  }

  /** No date Python can represent comes after 9999-12-31. */
  lemma LastDayNumber(d: Date)
    requires ValidDate(d)
    ensures DaysFromCivil(d) <= MaxDayNumber
  {
    MaxDayNumberIsLastDate();
    DaysFromCivilSplit(d);
    DaysFromCivilSplit(Date(9999, 12, 31));
    if d.month <= 2 || d.year < 9999 {
      var y := if d.month <= 2 then d.year - 1 else d.year;
      MarchYearStartGrows(y, 9998);
      MarchYearLength(9999);
    }
  }

  /**
    `d + timedelta(days=n)`: `None` exactly where Python raises `OverflowError`, that is when the
    sum would pass 9999-12-31.
  */
  function AddDays(d: Date, n: nat): (r: Option<Date>)
    requires ValidDate(d)
    ensures r.Some? ==> ValidDate(r.value)
    ensures r.Some? <==> DaysFromCivil(d) + n <= MaxDayNumber
    decreases n
  {
    if n == 0 then
      LastDayNumber(d);
      Some(d)
    else if d == Date(9999, 12, 31) then
      MaxDayNumberIsLastDate();
      None
    else
      NextDayNumber(d);
      AddDays(NextDay(d), n - 1)
  }

  /** Adding `n` days moves the day number forward by exactly `n`. */
  lemma {:induction false} AddDaysNumber(d: Date, n: nat)
    requires ValidDate(d)
    requires AddDays(d, n).Some?
    ensures DaysFromCivil(AddDays(d, n).value) == DaysFromCivil(d) + n
    decreases n
  {
    if n > 0 {
      NextDayNumber(d);
      AddDaysNumber(NextDay(d), n - 1);
    }
  }

  // ---------------------------------------------------------------------------------------------
  // Reading dates and timestamps back (`strptime(s, "%Y-%m-%d")`, `datetime.fromisoformat`)

  /** Reading back a zero-padded number gives the number, when it fits in the width. */
  lemma {:induction false} PadDigitsValue(n: nat, w: nat)
    requires n < Pow10(w)
    ensures DigitsValue(PadDigits(n, w)) == n
    decreases w
  {
    if w > 0 {
      PadDigitsValue(n / 10, w - 1);
      var s := PadDigits(n, w);
      assert s[..|s| - 1] == PadDigits(n / 10, w - 1);
    }
  }

  /**
    A date in the extended `YYYY-MM-DD` form, every field zero padded: how `datetime.fromisoformat`
    reads the date part of a timestamp and numpy reads a `datetime64[D]` string. `None` outside
    this form or for a day that does not exist.
  */
  function ParseDate(s: string): (r: Option<Date>)
    ensures r.Some? ==> ValidDate(r.value)
  {
    if |s| == 10 && s[4] == '-' && s[7] == '-' && IsDigits(s[..4]) && IsDigits(s[5..7]) && IsDigits(s[8..]) then
      var d := Date(DigitsValue(s[..4]), DigitsValue(s[5..7]), DigitsValue(s[8..]));
      if ValidDate(d) then Some(d) else None
    else None
  }

  /** A digit string is the zero-padded text of its own value, at its own width. */
  lemma {:induction false} PadDigitsOfValue(t: string)
    requires IsDigits(t)
    ensures PadDigits(DigitsValue(t), |t|) == t
    decreases |t|
  {
    if |t| > 0 {
      var u := t[..|t| - 1];
      assert IsDigits(u);
      PadDigitsOfValue(u);
      var c := t[|t| - 1] as int - '0' as int;
      var n := DigitsValue(t);
      assert n == DigitsValue(u) * 10 + c && 0 <= c < 10;
      assert n / 10 == DigitsValue(u) && n % 10 == c;
      assert t == u + [t[|t| - 1]];
    }
  }

  /** The strict reader accepts only the `strftime` text of the date it reads: its reading pins the text. */
  lemma FormatParsedDate(s: string)
    requires ParseDate(s).Some?
    ensures FormatDate(ParseDate(s).value) == s
  {
    PadDigitsOfValue(s[..4]);
    PadDigitsOfValue(s[5..7]);
    PadDigitsOfValue(s[8..]);
    assert s == s[..4] + "-" + s[5..7] + "-" + s[8..];
  }

  /** Parsing the formatted date gives the date back. */
  lemma ParseFormatDate(d: Date)
    requires ValidDate(d)
    ensures ParseDate(FormatDate(d)) == Some(d)
  {
    var s := FormatDate(d);
    assert s[..4] == PadDigits(d.year, 4);
    assert s[5..7] == PadDigits(d.month, 2);
    assert s[8..] == PadDigits(d.day, 2);
    Pow10Values();
    PadDigitsValue(d.year, 4);
    PadDigitsValue(d.month, 2);
    PadDigitsValue(d.day, 2);
  }

  /** `%m` in `strptime`: `1[0-2]`, `0[1-9]` or a single `[1-9]`. */
  predicate MonthField(t: string)
  {
    || (|t| == 1 && '1' <= t[0] <= '9')
    || (|t| == 2 && t[0] == '1' && '0' <= t[1] <= '2')
    || (|t| == 2 && t[0] == '0' && '1' <= t[1] <= '9')
  }

  /** `%d` in `strptime`: `3[01]`, `[12]` and a digit, `0[1-9]`, a single `[1-9]`, or a space and `[1-9]`. */
  predicate DayField(t: string)
  {
    || (|t| == 1 && '1' <= t[0] <= '9')
    || (|t| == 2 && t[0] == '3' && '0' <= t[1] <= '1')
    || (|t| == 2 && '1' <= t[0] <= '2' && '0' <= t[1] <= '9')
    || (|t| == 2 && (t[0] == '0' || t[0] == ' ') && '1' <= t[1] <= '9')
  }

  /** The number a `%m` or `%d` field stands for; a leading space counts for nothing. */
  function FieldValue(t: string): nat
    requires MonthField(t) || DayField(t)
  {
    if t[0] == ' ' then DigitsValue(t[1..]) else DigitsValue(t)
  }

  /**
    `datetime.strptime(s, "%Y-%m-%d").date()`: four digits, a dash, a month field, a dash and a
    day field, and nothing after them; `None` where Python raises `ValueError` (no match, text left
    over, or no such day).
  */
  function StrptimeDate(s: string): (r: Option<Date>)
    ensures r.Some? ==> ValidDate(r.value)
  {
    if |s| < 8 || !IsDigits(s[..4]) || s[4] != '-' then None
    else
      var w := if s[6] == '-' then 1 else 2;
      if |s| < 7 + w || s[5 + w] != '-' || !MonthField(s[5..5 + w]) || !DayField(s[6 + w..]) then None
      else
        var d := Date(DigitsValue(s[..4]), FieldValue(s[5..5 + w]), FieldValue(s[6 + w..]));
        if ValidDate(d) then Some(d) else None
  }

  /** On the zero-padded `YYYY-MM-DD` form, `strptime` reads the same date as the strict reader. */
  lemma StrptimePadded(s: string)
    requires ParseDate(s).Some?
    ensures StrptimeDate(s) == ParseDate(s)
  {
    var d := ParseDate(s).value;
    assert s[6] != '-' && s[5..7][0] == s[5] && s[5..7][1] == s[6];
    assert s[8..][0] == s[8] && s[8..][1] == s[9];
    assert DigitsValue(s[5..7]) == d.month && DigitsValue(s[8..]) == d.day;
  }

  /** `strptime(d.strftime("%Y-%m-%d"), "%Y-%m-%d")` gives `d` back. */
  lemma StrptimeFormatDate(d: Date)
    requires ValidDate(d)
    ensures StrptimeDate(FormatDate(d)) == Some(d)
  {
    ParseFormatDate(d);
    StrptimePadded(FormatDate(d));
  }

  /** The value of a one-digit or two-digit field. */
  lemma SmallDigitsValue(t: string)
    requires 1 <= |t| <= 2 && IsDigits(t)
    ensures |t| == 1 ==> DigitsValue(t) == t[0] as int - '0' as int
    ensures |t| == 2 ==> DigitsValue(t) == (t[0] as int - '0' as int) * 10 + (t[1] as int - '0' as int)
  {
    assert t[..|t| - 1][..0] == [];
    if |t| == 2 {
      assert t[..1][..0] == [];
    }
  }

  /** The year 2024 as four digits. */
  lemma Year2024()
    ensures DigitsValue("2024") == 2024
  {
    assert "2024"[..3] == "202" && "202"[..2] == "20" && "20"[..1] == "2" && "2"[..0] == [];
  }

  /** `strptime` also reads unpadded fields. */
  lemma StrptimeUnpadded()
    ensures StrptimeDate("2024-1-6") == Some(Date(2024, 1, 6))
  {
    var s := "2024-1-6";
    Year2024();
    assert s[..4] == "2024" && s[5..6] == "1" && s[7..] == "6";
    SmallDigitsValue("1");
    SmallDigitsValue("6");
  }

  /** `strptime` reads a day padded with a space. */
  lemma StrptimeSpacePadded()
    ensures StrptimeDate("2024-01- 6") == Some(Date(2024, 1, 6))
  {
    var s := "2024-01- 6";
    Year2024();
    assert s[..4] == "2024" && s[5..7] == "01" && s[8..] == " 6" && " 6"[1..] == "6";
    SmallDigitsValue("01");
    SmallDigitsValue("6");
  }

  /** `strptime` refuses a day the month does not have, and text left over after the day. */
  lemma StrptimeRefusals()
    ensures StrptimeDate("2024-02-30") == None
    ensures StrptimeDate("2024-01-061") == None
  {
    Year2024();
    assert "2024-02-30"[..4] == "2024" && "2024-02-30"[5..7] == "02" && "2024-02-30"[8..] == "30";
    SmallDigitsValue("02");
    SmallDigitsValue("30");
    assert "2024-01-061"[8..] == "061";
  }

  /** Microseconds since 1970-01-01T00:00:00 (the timeline `timedelta` arithmetic moves along). */
  function Micros(t: DateTime): int
  {
    (((DaysFromCivil(t.date) * 24 + t.hour) * 60 + t.minute) * 60 + t.second) * 1000000 + t.microsecond
  }

  /** `t - timedelta(hours=1)`: exactly one hour earlier; `None` where Python raises `OverflowError`. */
  function MinusOneHour(t: DateTime): (r: Option<DateTime>)
    requires ValidDateTime(t)
    ensures r.Some? ==> ValidDateTime(r.value) && Micros(r.value) == Micros(t) - 3600000000
    ensures r.None? <==> t.date == Date(1, 1, 1) && t.hour == 0
  {
    if t.hour >= 1 then Some(t.(hour := t.hour - 1))
    else if t.date == Date(1, 1, 1) then None
    else
      PrevDayNumber(t.date);
      Some(t.(date := PrevDay(t.date), hour := 23))
  }

  /** A timestamp as `fromisoformat` reads it: local date and time, and the UTC offset in seconds (`None` when naive). */
  datatype Moment = Moment(local: DateTime, offset: Option<int>)

  /** The offsets `datetime.timezone` accepts: strictly less than a day either way. */
  predicate ValidOffset(o: Option<int>)
  {
    o.Some? ==> -86400 < o.value < 86400
  }

  predicate ValidMoment(m: Moment)
  {
    ValidDateTime(m.local) && ValidOffset(m.offset)
  }

  /** The magnitude of an offset as `isoformat` writes it: `HH:MM`, then `:SS` when there are seconds. */
  function OffsetClock(h: nat, m: nat, s: nat): string
  {
    PadDigits(h, 2) + ":" + PadDigits(m, 2) + (if s == 0 then "" else ":" + PadDigits(s, 2))
  }

  /** How `isoformat` writes an offset: a sign and its magnitude; nothing when naive. */
  function OffsetText(o: Option<int>): string
    requires ValidOffset(o)
  {
    match o
    case None => ""
    case Some(v) =>
      var a := if v < 0 then -v else v;
      (if v < 0 then "-" else "+") + OffsetClock(a / 3600, a % 3600 / 60, a % 60)
  }

  /** `Moment.isoformat()`. */
  function IsoFormatMoment(m: Moment): string
    requires ValidMoment(m)
  {
    IsoFormat(m.local) + OffsetText(m.offset)
  }

  /** The characters that start an offset, and those that start a fraction of a second. */
  const OffsetStarts: set<char> := {'+', '-', 'Z'}
  const FractionMarks: set<char> := {'.', ','}

  /** The first position of `s` holding one of `stops`, or `|s|` when there is none. */
  function FirstOf(s: string, stops: set<char>): (k: nat)
    ensures k <= |s|
    ensures forall i :: 0 <= i < k ==> s[i] !in stops
    ensures k < |s| ==> s[k] in stops
  {
    if |s| == 0 || s[0] in stops then 0 else 1 + FirstOf(s[1..], stops)
  }

  /** The search stops right after a prefix holding none of `stops`. */
  lemma {:induction false} FirstOfAfter(a: string, b: string, stops: set<char>)
    requires forall i :: 0 <= i < |a| ==> a[i] !in stops
    requires b == [] || b[0] in stops
    ensures FirstOf(a + b, stops) == |a|
    decreases |a|
  {
    if |a| > 0 {
      assert (a + b)[1..] == a[1..] + b;
      FirstOfAfter(a[1..], b, stops);
    } else {
      assert a + b == b;
    }
  }

  /** `HH`, `HH:MM`, `HH:MM:SS`, or the same without colons, as hours, minutes and seconds; ranges unchecked. */
  function ClockFields(t: string): Option<(nat, nat, nat)>
  {
    if |t| == 2 && IsDigits(t) then Some((DigitsValue(t), 0, 0))
    else if |t| == 4 && IsDigits(t) then Some((DigitsValue(t[..2]), DigitsValue(t[2..]), 0))
    else if |t| == 5 && t[2] == ':' && IsDigits(t[..2]) && IsDigits(t[3..]) then
      Some((DigitsValue(t[..2]), DigitsValue(t[3..]), 0))
    else if |t| == 6 && IsDigits(t) then Some((DigitsValue(t[..2]), DigitsValue(t[2..4]), DigitsValue(t[4..])))
    else if |t| == 8 && t[2] == ':' && t[5] == ':' && IsDigits(t[..2]) && IsDigits(t[3..5]) && IsDigits(t[6..]) then
      Some((DigitsValue(t[..2]), DigitsValue(t[3..5]), DigitsValue(t[6..])))
    else None
  }

  /** `v` below `10^k` scaled up to six digits stays below a million. */
  lemma ScaleToMicros(v: nat, k: nat)
    requires k <= 6 && v < Pow10(k)
    ensures v * Pow10(6 - k) < 1000000
  {
    Pow10Values();
    assert Pow10(1) == 10 && Pow10(3) == 1000 && Pow10(5) == 100000;
  }

  /** A fraction of a second in microseconds: its first six digits, padded on the right with zeros. */
  function FractionMicros(f: string): (us: nat)
    requires IsDigits(f)
    ensures us < 1000000
  {
    var k := if |f| < 6 then |f| else 6;
    DigitsValueBound(f[..k]);
    ScaleToMicros(DigitsValue(f[..k]), k);
    DigitsValue(f[..k]) * Pow10(6 - k)
  }

  /**
    What `fromisoformat` reads as a time of day: clock fields, then optionally `.` or `,` and at
    least one digit of fraction (digits past the sixth are dropped); ranges unchecked.
  */
  function ClockReading(t: string): (r: Option<(nat, nat, nat, nat)>)
    ensures r.Some? ==> r.value.3 < 1000000
  {
    var k := FirstOf(t, FractionMarks);
    match ClockFields(t[..k])
    case None => None
    case Some(f) =>
      if k == |t| then Some((f.0, f.1, f.2, 0))
      else if k + 1 == |t| || !IsDigits(t[k + 1..]) then None
      else Some((f.0, f.1, f.2, FractionMicros(t[k + 1..])))
  }

  /** A time of day `datetime` accepts: hour below 24, minute and second below 60. */
  function ParseClock(t: string): (r: Option<(nat, nat, nat, nat)>)
    ensures r.Some? ==> r.value.0 < 24 && r.value.1 < 60 && r.value.2 < 60 && r.value.3 < 1000000
  {
    match ClockReading(t)
    case None => None
    case Some(c) => if c.0 < 24 && c.1 < 60 && c.2 < 60 then Some(c) else None
  }

  /**
    The UTC offset after a time: `Z`, or a sign and hours with optional minutes and seconds, in
    seconds. `None` where Python raises: any other text, or a day or more either way.
  */
  function ParseOffset(o: string): (r: Option<int>)
    ensures ValidOffset(r)
  {
    if o == "Z" then Some(0)
    else if |o| == 0 || (o[0] != '+' && o[0] != '-') then None
    else
      match ClockReading(o[1..])
      case None => None
      case Some(c) =>
        var v := c.0 * 3600 + c.1 * 60 + c.2;
        if c.3 != 0 || v >= 86400 then None
        else Some(if o[0] == '-' then -v else v)
  }

  /**
    `datetime.fromisoformat(s)` on the extended forms: a `YYYY-MM-DD` date alone (midnight, naive),
    or a date, any one separator character, a time of day and an optional offset. `None` where
    Python raises `ValueError`.
  */
  function ParseIsoDateTime(s: string): (r: Option<Moment>)
    ensures r.Some? ==> ValidMoment(r.value)
  {
    if |s| < 10 || ParseDate(s[..10]).None? then None
    else
      var d := ParseDate(s[..10]).value;
      if |s| == 10 then Some(Moment(DateTime(d, 0, 0, 0, 0), None))
      else
        var rest := s[11..];
        var k := FirstOf(rest, OffsetStarts);
        match ParseClock(rest[..k])
        case None => None
        case Some(c) =>
          var t := DateTime(d, c.0, c.1, c.2, c.3);
          if k == |rest| then Some(Moment(t, None))
          else
            match ParseOffset(rest[k..])
            case None => None
            case Some(v) => Some(Moment(t, Some(v)))
  }

  /** `HH:MM:SS` reads back as its fields. */
  lemma ClockFieldsColons(h: nat, m: nat, s: nat)
    requires h < 100 && m < 100 && s < 100
    ensures ClockFields(PadDigits(h, 2) + ":" + PadDigits(m, 2) + ":" + PadDigits(s, 2)) == Some((h, m, s))
  {
    var t := PadDigits(h, 2) + ":" + PadDigits(m, 2) + ":" + PadDigits(s, 2);
    assert t[..2] == PadDigits(h, 2) && t[3..5] == PadDigits(m, 2) && t[6..] == PadDigits(s, 2);
    Pow10Values();
    PadDigitsValue(h, 2);
    PadDigitsValue(m, 2);
    PadDigitsValue(s, 2);
  }

  /** `HH:MM` reads back as its fields. */
  lemma ClockFieldsColon(h: nat, m: nat)
    requires h < 100 && m < 100
    ensures ClockFields(PadDigits(h, 2) + ":" + PadDigits(m, 2)) == Some((h, m, 0))
  {
    var t := PadDigits(h, 2) + ":" + PadDigits(m, 2);
    assert t[..2] == PadDigits(h, 2) && t[3..] == PadDigits(m, 2);
    Pow10Values();
    PadDigitsValue(h, 2);
    PadDigitsValue(m, 2);
  }

  /** Six digits of fraction read back as the microseconds they were written from. */
  lemma FractionMicrosPadded(us: nat)
    requires us < 1000000
    ensures FractionMicros(PadDigits(us, 6)) == us
  {
    var f := PadDigits(us, 6);
    assert f[..6] == f;
    Pow10Values();
    PadDigitsValue(us, 6);
  }

  /** A clock reading followed by a fraction mark: the reading holds no mark, so the fraction starts there. */
  lemma ClockReadingSplit(hms: string, tail: string, f: (nat, nat, nat))
    requires forall i :: 0 <= i < |hms| ==> hms[i] == ':' || '0' <= hms[i] <= '9'
    requires ClockFields(hms) == Some(f)
    requires tail == [] || (tail[0] == '.' && |tail| > 1 && IsDigits(tail[1..]))
    ensures ClockReading(hms + tail) == Some((f.0, f.1, f.2, if tail == [] then 0 else FractionMicros(tail[1..])))
  {
    var c := hms + tail;
    FirstOfAfter(hms, tail, FractionMarks);
    assert c[..|hms|] == hms;
    if tail != [] {
      assert c[|hms| + 1..] == tail[1..];
    }
  }

  /** The clock text reads back as the clock. */
  lemma ParseClockText(t: DateTime)
    requires ValidDateTime(t)
    ensures ParseClock(ClockText(t)) == Some((t.hour, t.minute, t.second, t.microsecond))
  {
    var hms := PadDigits(t.hour, 2) + ":" + PadDigits(t.minute, 2) + ":" + PadDigits(t.second, 2);
    HmsReading(t.hour, t.minute, t.second);
    if t.microsecond == 0 {
      assert ClockText(t) == hms;
    } else {
      var digits := PadDigits(t.microsecond, 6);
      assert ClockText(t) == hms + ("." + digits);
      assert IsDigits(digits);
      FractionMicrosPadded(t.microsecond);
      ClockWithFraction(hms, (t.hour, t.minute, t.second), digits);
    }
  }

  /** Clock fields, a `.` and digits read as that clock with the digits as its fraction. */
  lemma ClockWithFraction(hms: string, f: (nat, nat, nat), digits: string)
    requires forall i :: 0 <= i < |hms| ==> hms[i] == ':' || '0' <= hms[i] <= '9'
    requires ClockFields(hms) == Some(f)
    requires |digits| > 0 && IsDigits(digits)
    ensures ClockReading(hms + ("." + digits)) == Some((f.0, f.1, f.2, FractionMicros(digits)))
  {
    var tail := "." + digits;
    assert tail[1..] == digits;
    ClockReadingSplit(hms, tail, f);
  }

  /** `HH:MM:SS` is made of digits and colons and reads back as its fields. */
  lemma HmsReading(h: nat, m: nat, s: nat)
    requires h < 100 && m < 100 && s < 100
    ensures var hms := PadDigits(h, 2) + ":" + PadDigits(m, 2) + ":" + PadDigits(s, 2);
      && (forall i :: 0 <= i < |hms| ==> hms[i] == ':' || '0' <= hms[i] <= '9')
      && ClockFields(hms) == Some((h, m, s))
      && ClockReading(hms) == Some((h, m, s, 0))
  {
    var hms := PadDigits(h, 2) + ":" + PadDigits(m, 2) + ":" + PadDigits(s, 2);
    ClockFieldsColons(h, m, s);
    ClockReadingWhole(hms, (h, m, s));
  }

  /** Hours, minutes and seconds of a magnitude below a day add back up to it. */
  lemma OffsetParts(a: nat)
    requires a < 86400
    ensures a / 3600 < 24 && a % 3600 / 60 < 60 && a % 60 < 60
    ensures a / 3600 * 3600 + a % 3600 / 60 * 60 + a % 60 == a
  {
  }

  /** `HH:MM`, then `:SS` when the seconds are not zero, reads back as its fields. */
  lemma OffsetBodyReading(h: nat, m: nat, s: nat)
    requires h < 24 && m < 60 && s < 60
    ensures ClockReading(OffsetClock(h, m, s)) == Some((h, m, s, 0))
  {
    var o := OffsetClock(h, m, s);
    var hm := PadDigits(h, 2) + ":" + PadDigits(m, 2);
    if s == 0 {
      assert o == hm;
      ClockFieldsColon(h, m);
    } else {
      assert o == hm + ":" + PadDigits(s, 2);
      ClockFieldsColons(h, m, s);
    }
    ClockReadingWhole(o, (h, m, s));
  }

  /** Clock fields with no fraction after them read as that clock, with no microseconds. */
  lemma ClockReadingWhole(hms: string, f: (nat, nat, nat))
    requires forall i :: 0 <= i < |hms| ==> hms[i] == ':' || '0' <= hms[i] <= '9'
    requires ClockFields(hms) == Some(f)
    ensures ClockReading(hms) == Some((f.0, f.1, f.2, 0))
  {
    ClockReadingSplit(hms, [], f);
    assert hms + [] == hms;
  }

  /** A sign before a reading of less than a day gives that many seconds, negated after `-`. */
  lemma ParseSignedOffset(sign: char, body: string, h: nat, m: nat, s: nat)
    requires sign == '+' || sign == '-'
    requires ClockReading(body) == Some((h, m, s, 0)) && h * 3600 + m * 60 + s < 86400
    ensures ParseOffset([sign] + body) == Some(if sign == '-' then -(h * 3600 + m * 60 + s) else h * 3600 + m * 60 + s)
  {
    assert ([sign] + body)[1..] == body;
  }

  /** The offset text of `v` is its sign before the clock of its magnitude. */
  lemma OffsetTextSplit(v: int, a: nat)
    requires ValidOffset(Some(v)) && a == if v < 0 then -v else v
    ensures OffsetText(Some(v)) == [if v < 0 then '-' else '+'] + OffsetClock(a / 3600, a % 3600 / 60, a % 60)
  {
  }

  /** The offset text reads back as the offset. */
  lemma ParseOffsetText(v: int)
    requires ValidOffset(Some(v))
    ensures ParseOffset(OffsetText(Some(v))) == Some(v)
  {
    var a: nat := if v < 0 then -v else v;
    OffsetParts(a);
    OffsetTextSplit(v, a);
    SignedClockOffset(v, a, a / 3600, a % 3600 / 60, a % 60);
  }

  /** A sign and the clock of hours, minutes and seconds adding up to `|v|` read back as `v`. */
  lemma SignedClockOffset(v: int, a: nat, h: nat, m: nat, s: nat)
    requires a == (if v < 0 then -v else v) && a < 86400
    requires h < 24 && m < 60 && s < 60 && h * 3600 + m * 60 + s == a
    ensures ParseOffset([if v < 0 then '-' else '+'] + OffsetClock(h, m, s)) == Some(v)
  {
    OffsetBodyReading(h, m, s);
    ParseSignedOffset(if v < 0 then '-' else '+', OffsetClock(h, m, s), h, m, s);
  }

  /** A date, a separator, a time of day and an offset read as the moment they describe. */
  lemma ParseIsoPieces(date: string, sep: char, clock: string, offset: string, c: (nat, nat, nat, nat), v: Option<int>)
    requires |date| == 10 && ParseDate(date).Some?
    requires forall i :: 0 <= i < |clock| ==> clock[i] !in OffsetStarts
    requires ParseClock(clock) == Some(c)
    requires offset == [] ==> v.None?
    requires offset != [] ==> offset[0] in OffsetStarts && v.Some? && ParseOffset(offset) == Some(v.value)
    ensures ParseIsoDateTime(date + [sep] + clock + offset)
      == Some(Moment(DateTime(ParseDate(date).value, c.0, c.1, c.2, c.3), v))
  {
    var s := date + [sep] + clock + offset;
    assert s[..10] == date;
    assert s[11..] == clock + offset;
    FirstOfAfter(clock, offset, OffsetStarts);
    assert (clock + offset)[..|clock|] == clock && (clock + offset)[|clock|..] == offset;
  }

  /** `fromisoformat(m.isoformat()) == m`. */
  lemma ParseIsoFormat(m: Moment)
    requires ValidMoment(m)
    ensures ParseIsoDateTime(IsoFormatMoment(m)) == Some(m)
  {
    var t := m.local;
    var f, c, o := FormatDate(t.date), ClockText(t), OffsetText(m.offset);
    assert IsoFormatMoment(m) == f + ['T'] + c + o;
    ParseFormatDate(t.date);
    ParseClockText(t);
    assert forall i :: 0 <= i < |c| ==> c[i] !in OffsetStarts;
    if m.offset.Some? {
      ParseOffsetText(m.offset.value);
    }
    ParseIsoPieces(f, 'T', c, o, (t.hour, t.minute, t.second, t.microsecond), m.offset);
  }

  /** The date part shared by the examples below. */
  lemma January6()
    ensures ParseDate("2024-01-06") == Some(Date(2024, 1, 6))
  {
    var s := "2024-01-06";
    Year2024();
    assert s[..4] == "2024" && s[5..7] == "01" && s[8..] == "06";
    SmallDigitsValue("01");
    SmallDigitsValue("06");
  }

  /** An hour alone, a space as the separator, and `Z` for UTC. */
  lemma ParseIsoHourZulu()
    ensures ParseIsoDateTime("2024-01-06 10Z") == Some(Moment(DateTime(Date(2024, 1, 6), 10, 0, 0, 0), Some(0)))
  {
    var s := "2024-01-06 10Z";
    January6();
    assert s[..10] == "2024-01-06";
    var rest := s[11..];
    assert rest == "10" + "Z";
    FirstOfAfter("10", "Z", OffsetStarts);
    assert rest[..2] == "10" && rest[2..] == "Z";
    SmallDigitsValue("10");
    FirstOfAfter("10", [], FractionMarks);
    assert "10" + [] == "10" && "10"[..2] == "10";
  }

  /** `10:30:00` as clock fields. */
  lemma HalfPastTen()
    ensures ClockFields("10:30:00") == Some((10, 30, 0))
  {
    var t := "10:30:00";
    assert t[..2] == "10" && t[3..5] == "30" && t[6..] == "00";
    SmallDigitsValue("10");
    SmallDigitsValue("30");
    SmallDigitsValue("00");
  }

  /** A one-digit fraction counts tenths of a second; digits past the sixth are dropped. */
  lemma FractionExamples()
    ensures FractionMicros("5") == 500000
    ensures FractionMicros("1234567") == 123456
  {
    assert "5"[..1] == "5";
    SmallDigitsValue("5");
    Pow10Values();
    assert Pow10(5) == 100000;
    var f := "1234567";
    assert f[..6] == "123456";
    assert "123456"[..5] == "12345" && "12345"[..4] == "1234" && "1234"[..3] == "123";
    assert "123"[..2] == "12" && "12"[..1] == "1" && "1"[..0] == [];
  }

  /** A basic `-HHMM` offset is west of UTC. */
  lemma BasicOffset()
    ensures ParseOffset("-0130") == Some(-5400)
  {
    assert "-0130"[1..] == "0130" + [];
    FirstOfAfter("0130", [], FractionMarks);
    assert "0130"[..2] == "01" && "0130"[2..] == "30";
    SmallDigitsValue("01");
    SmallDigitsValue("30");
  }

  /** Hour 24 is refused. */
  lemma ParseIsoHour24()
    ensures ParseIsoDateTime("2024-01-06T24:00") == None
  {
    var s := "2024-01-06T24:00";
    assert s[11..] == "24:00" + [];
    FirstOfAfter("24:00", [], OffsetStarts);
    Hour24Clock();
    RefusedClock(s);
  }

  /** `24:00` is not a time of day. */
  lemma Hour24Clock()
    ensures ParseClock("24:00") == None
  {
    var t := "24:00";
    assert t + [] == t;
    FirstOfAfter(t, [], FractionMarks);
    assert t[..2] == "24";
    SmallDigitsValue("24");
  }

  /** A timestamp whose time of day is refused is refused. */
  lemma RefusedClock(s: string)
    requires |s| > 10 && ParseClock(s[11..][..FirstOf(s[11..], OffsetStarts)]).None?
    ensures ParseIsoDateTime(s) == None
  {
  }
}
