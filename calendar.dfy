/** .NET `DateTime` at millisecond resolution: a proleptic Gregorian date
    between the years 1 and 9999 and a time of day. `AddMilliseconds` is
    specified against `Instant`, the number of milliseconds since
    0001-01-01 00:00:00.000, which is what the .NET type stores (in ticks). */
module Calendar {
  import opened Wrappers

  datatype DateTime = DateTime(year: int, month: int, day: int,
                               hour: int, minute: int, second: int, millisecond: int)
  {
    predicate Valid()
    {
      && 1 <= year <= 9999 && 1 <= month <= 12 && 1 <= day <= DaysInMonth(year, month)
      && 0 <= hour < 24 && 0 <= minute < 60 && 0 <= second < 60 && 0 <= millisecond < 1000
    }
  }

  type ValidDateTime = d: DateTime | d.Valid() witness DateTime(1, 1, 1, 0, 0, 0, 0)

  const MsPerDay: int := 86_400_000
  /** Day number of 9999-12-31, the last day `DateTime` can hold. */
  const MaxDayNumber: int := 3_652_058
  const MaxInstant: int := (MaxDayNumber + 1) * MsPerDay - 1

  predicate IsLeapYear(y: int)
  {
    y % 4 == 0 && (y % 100 != 0 || y % 400 == 0)
  }

  function DaysInMonth(y: int, m: int): int
    requires 1 <= m <= 12
  {
    if m == 2 then (if IsLeapYear(y) then 29 else 28)
    else if m == 4 || m == 6 || m == 9 || m == 11 then 30
    else 31
  }

  function YearLength(y: int): int
  {
    if IsLeapYear(y) then 366 else 365
  }

  /** Days from 0001-01-01 to January 1st of year `y`. */
  function DaysBeforeYear(y: int): int
    requires y >= 1
  {
    var k := y - 1;
    365 * k + k / 4 - k / 100 + k / 400
  }

  /** Days from January 1st to the first day of month `m` of year `y`. */
  function DaysBeforeMonth(y: int, m: int): int
    requires 1 <= m <= 12
  {
    var common :=
      if m == 1 then 0 else if m == 2 then 31 else if m == 3 then 59
      else if m == 4 then 90 else if m == 5 then 120 else if m == 6 then 151
      else if m == 7 then 181 else if m == 8 then 212 else if m == 9 then 243
      else if m == 10 then 273 else if m == 11 then 304 else 334;
    if m > 2 && IsLeapYear(y) then common + 1 else common
  }

  /** Days since 0001-01-01 (the .NET `Ticks / TicksPerDay`). */
  function DayNumber(d: ValidDateTime): int
  {
    DaysBeforeYear(d.year) + DaysBeforeMonth(d.year, d.month) + d.day - 1
  }

  function TimeOfDay(d: ValidDateTime): (r: int)
    ensures 0 <= r < MsPerDay
  {
    ((d.hour * 60 + d.minute) * 60 + d.second) * 1000 + d.millisecond
  }

  /** Milliseconds since 0001-01-01 00:00:00.000. */
  function Instant(d: ValidDateTime): int
  {
    DayNumber(d) * MsPerDay + TimeOfDay(d)
  }

  /** `DayOfWeek` with 0 for Sunday; 0001-01-01 was a Monday. */
  function DayOfWeek(d: ValidDateTime): (r: int)
    ensures 0 <= r < 7
  {
    (DayNumber(d) + 1) % 7
  }

  lemma YearStep(y: int)
    requires y >= 1
    ensures DaysBeforeYear(y + 1) == DaysBeforeYear(y) + YearLength(y)
  {
    var k := y - 1;
    assert (k + 1) / 4 - k / 4 == (if y % 4 == 0 then 1 else 0);
    assert (k + 1) / 100 - k / 100 == (if y % 100 == 0 then 1 else 0);
    assert (k + 1) / 400 - k / 400 == (if y % 400 == 0 then 1 else 0);
  }

  lemma DayNumberBounds(d: ValidDateTime)
    ensures 0 <= DayNumber(d) <= MaxDayNumber
    ensures DayNumber(d) == MaxDayNumber <==> d.year == 9999 && d.month == 12 && d.day == 31
  {
    if d.year < 9999 {
      DaysBeforeYearMonotone(d.year + 1, 9999);
      YearStep(d.year);
    }
  }

  lemma DaysBeforeYearMonotone(a: int, b: int)
    requires 1 <= a <= b
    ensures DaysBeforeYear(a) <= DaysBeforeYear(b)
  {
    var ka, kb := a - 1, b - 1;
    assert ka / 4 - ka / 100 + ka / 400 >= 0;
    assert kb / 4 - ka / 4 >= 0 && kb / 400 - ka / 400 >= 0;
    assert kb / 100 - ka / 100 <= (kb - ka) / 100 + 1;
  }

  /** The same time of day on the following day. */
  function NextDay(d: ValidDateTime): (r: ValidDateTime)
    requires DayNumber(d) < MaxDayNumber
    ensures DayNumber(r) == DayNumber(d) + 1 && TimeOfDay(r) == TimeOfDay(d)
  {
    DayNumberBounds(d);
    if d.day < DaysInMonth(d.year, d.month) then
      d.(day := d.day + 1)
    else if d.month < 12 then
      d.(month := d.month + 1, day := 1)
    else
      YearStep(d.year);
      d.(year := d.year + 1, month := 1, day := 1)
  }

  /** The same time of day on the previous day. */
  function PrevDay(d: ValidDateTime): (r: ValidDateTime)
    requires 0 < DayNumber(d)
    ensures DayNumber(r) == DayNumber(d) - 1 && TimeOfDay(r) == TimeOfDay(d)
  {
    if d.day > 1 then
      d.(day := d.day - 1)
    else if d.month > 1 then
      d.(month := d.month - 1, day := DaysInMonth(d.year, d.month - 1))
    else
      assert d.year > 1;
      YearStep(d.year - 1);
      d.(year := d.year - 1, month := 12, day := 31)
  }

  /** `AddDays(n)` within the representable range. */
  function AddDays(d: ValidDateTime, n: int): (r: ValidDateTime)
    requires 0 <= DayNumber(d) + n <= MaxDayNumber
    ensures DayNumber(r) == DayNumber(d) + n && TimeOfDay(r) == TimeOfDay(d)
    decreases if n < 0 then -n else n
  {
    if n == 0 then d
    else if n > 0 then AddDays(NextDay(d), n - 1)
    else AddDays(PrevDay(d), n + 1)
  }

  /** The same date at the given millisecond of the day. */
  function AtTimeOfDay(d: ValidDateTime, t: int): (r: ValidDateTime)
    requires 0 <= t < MsPerDay
    ensures DayNumber(r) == DayNumber(d) && TimeOfDay(r) == t
  {
    var r := d.(hour := t / 3_600_000, minute := t / 60_000 % 60,
                second := t / 1000 % 60, millisecond := t % 1000);
    assert TimeOfDay(r) == t by {
      var s := t / 1000;
      assert t == s * 1000 + t % 1000;
      var mi := s / 60;
      assert s == mi * 60 + s % 60;
      assert mi == t / 60_000;
      var h := mi / 60;
      assert mi == h * 60 + mi % 60;
      assert h == t / 3_600_000;
    }
    r
  }

  /** `DateTime.AddMilliseconds`: the instant moves by exactly `ms`, and a
      result outside the years 1 to 9999 throws `ArgumentOutOfRangeException`. */
  function AddMilliseconds(d: ValidDateTime, ms: int): (r: Outcome<ValidDateTime>)
    ensures r.Ok? <==> 0 <= Instant(d) + ms <= MaxInstant
    ensures r.Ok? ==> Instant(r.value) == Instant(d) + ms
    ensures r.Throws? ==> r.exn.kind == ArgumentOutOfRangeException
  {
    var t := Instant(d) + ms;
    if t < 0 || t > MaxInstant then
      Raise(ArgumentOutOfRangeException, "The added or subtracted value results in an un-representable DateTime.")
    else
      var shifted := TimeOfDay(d) + ms;
      var days := shifted / MsPerDay;
      var rest := shifted % MsPerDay;
      assert t == (DayNumber(d) + days) * MsPerDay + rest;
      Ok(AtTimeOfDay(AddDays(d, days), rest))
  }
  /** Each month ends before the next one starts. */
  lemma MonthsOrdered(y: int, m1: int, m2: int)
    requires 1 <= m1 < m2 <= 12
    ensures DaysBeforeMonth(y, m1) + DaysInMonth(y, m1) <= DaysBeforeMonth(y, m2)
  {
  }

  /** The days of year `y` are numbered from `DaysBeforeYear(y)` on. */
  lemma DayNumberWithinYear(d: ValidDateTime)
    ensures DaysBeforeYear(d.year) <= DayNumber(d) < DaysBeforeYear(d.year + 1)
  {
    YearStep(d.year);
    if d.month < 12 {
      MonthsOrdered(d.year, d.month, 12);
    }
  }

  /** Different dates have different day numbers. */
  lemma DayNumberInjective(a: ValidDateTime, b: ValidDateTime)
    requires DayNumber(a) == DayNumber(b)
    ensures a.year == b.year && a.month == b.month && a.day == b.day
  {
    DayNumberWithinYear(a);
    DayNumberWithinYear(b);
    if a.year < b.year {
      DaysBeforeYearMonotone(a.year + 1, b.year);
    } else if b.year < a.year {
      DaysBeforeYearMonotone(b.year + 1, a.year);
    } else if a.month < b.month {
      MonthsOrdered(a.year, a.month, b.month);
    } else if b.month < a.month {
      MonthsOrdered(a.year, b.month, a.month);
    }
  }

  /** Different times of day are different milliseconds of the day. */
  lemma TimeOfDayInjective(a: ValidDateTime, b: ValidDateTime)
    requires TimeOfDay(a) == TimeOfDay(b)
    ensures a.hour == b.hour && a.minute == b.minute && a.second == b.second
    ensures a.millisecond == b.millisecond
  {
    var sa, sb := (a.hour * 60 + a.minute) * 60 + a.second, (b.hour * 60 + b.minute) * 60 + b.second;
    assert sa == sb && a.millisecond == b.millisecond by {
      assert TimeOfDay(a) == sa * 1000 + a.millisecond;
      assert TimeOfDay(b) == sb * 1000 + b.millisecond;
    }
    var ma, mb := a.hour * 60 + a.minute, b.hour * 60 + b.minute;
    assert ma == mb && a.second == b.second by {
      assert sa == ma * 60 + a.second && sb == mb * 60 + b.second;
    }
  }

  /** `Instant` identifies a date-time: it is what .NET compares. */
  lemma InstantInjective(a: ValidDateTime, b: ValidDateTime)
    requires Instant(a) == Instant(b)
    ensures a == b
  {
    assert DayNumber(a) == DayNumber(b) && TimeOfDay(a) == TimeOfDay(b) by {
      assert Instant(a) == DayNumber(a) * MsPerDay + TimeOfDay(a);
      assert Instant(b) == DayNumber(b) * MsPerDay + TimeOfDay(b);
    }
    DayNumberInjective(a, b);
    TimeOfDayInjective(a, b);
  }
}
