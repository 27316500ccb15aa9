/**
 * The part of java.time the workflow uses: instants as whole seconds since
 * 1970-01-01T00:00:00Z, ISO local date-times, and `LocalDateTime.toInstant(ZoneOffset.UTC)`.
 */
module JavaTime {
  /** An `Instant`, in whole seconds since the epoch; a sub-second part is dropped. */
  type Instant = int

  const SecondsPerDay: int := 86400

  /** `t.minus(days, ChronoUnit.DAYS)`: an `Instant` day is exactly 86400 seconds. */
  function MinusDays(t: Instant, days: int): (r: Instant)
    ensures r + days * SecondsPerDay == t
  {
    t - days * SecondsPerDay
  }

  datatype LocalDateTime = LocalDateTime(year: int, month: int, day: int, hour: int, minute: int, second: int)

  /** `IsoChronology.isLeapYear`. */
  predicate IsLeapYear(y: int)
  {
    y % 4 == 0 && (y % 100 != 0 || y % 400 == 0)
  }

  function MonthLength(y: int, m: int): int
    requires 1 <= m <= 12
  {
    if m == 2 then (if IsLeapYear(y) then 29 else 28)
    else if m in {4, 6, 9, 11} then 30
    else 31
  }

  /** The fields lie in their ISO ranges, as every `LocalDateTime` that `parse` builds does. */
  predicate ValidDateTime(t: LocalDateTime)
  {
    1 <= t.month <= 12 && 1 <= t.day <= MonthLength(t.year, t.month) &&
    0 <= t.hour < 24 && 0 <= t.minute < 60 && 0 <= t.second < 60
  }

  /** Java's `/` on `long`: the quotient truncated toward zero. */
  function TruncDiv(a: int, b: int): int
    requires b != 0
  {
    if (a < 0) == (b < 0) then (if a < 0 then -a else a) / (if b < 0 then -b else b)
    else -((if a < 0 then -a else a) / (if b < 0 then -b else b))
  }

  /** Days from 0000-01-01 to 1970-01-01: five 400-year cycles less 30 years and 7 leap days. */
  const Days0000To1970: int := 719528

  /** The leap days before year `y` (counted from year 0, negative for years before it), as the JDK counts them. */
  function LeapDaysBefore(y: int): int
  {
    if y >= 0 then (y + 3) / 4 - (y + 99) / 100 + (y + 399) / 400
    else -(TruncDiv(y, -4) - TruncDiv(y, -100) + TruncDiv(y, -400))
  }

  /** Days from the first of January to the first of month `m`, as the JDK computes them. */
  function MonthOffset(y: int, m: int): int
  {
    var days := TruncDiv(367 * m - 362, 12);
    if m > 2 then (if IsLeapYear(y) then days - 1 else days - 2) else days
  }

  /** `LocalDate.toEpochDay`: the JDK's running total, split into its year, month and day terms. */
  function EpochDay(t: LocalDateTime): int
  {
    365 * t.year + LeapDaysBefore(t.year) + MonthOffset(t.year, t.month) + t.day - 1 - Days0000To1970
  }

  function SecondOfDay(t: LocalDateTime): int
  {
    t.hour * 3600 + t.minute * 60 + t.second
  }

  /** `t.toInstant(ZoneOffset.UTC)`: the date-time read as a UTC wall clock. */
  function ToInstantUtc(t: LocalDateTime): (r: Instant)
    ensures ValidDateTime(t) ==> EpochDay(t) * SecondsPerDay <= r < (EpochDay(t) + 1) * SecondsPerDay
  {
    EpochDay(t) * SecondsPerDay + SecondOfDay(t)
  }

  /** Midnight at the start of the given day. */
  function StartOfDay(y: int, m: int, d: int): LocalDateTime
  {
    LocalDateTime(y, m, d, 0, 0, 0)
  }

  /** The next day of the same month is the next epoch day. */
  lemma NextDayInMonth(y: int, m: int, d: int)
    requires 1 <= m <= 12 && 1 <= d < MonthLength(y, m)
    ensures EpochDay(StartOfDay(y, m, d + 1)) == EpochDay(StartOfDay(y, m, d)) + 1
  {
  }

  /** The first of the next month lies exactly one month length later. */
  lemma NextMonth(y: int, m: int)
    requires 1 <= m < 12
    ensures EpochDay(StartOfDay(y, m + 1, 1)) - EpochDay(StartOfDay(y, m, 1)) == MonthLength(y, m)
  {
    assert MonthOffset(y, m + 1) - MonthOffset(y, m) == MonthLength(y, m) by {
      assert TruncDiv(367 * m - 362, 12) == (367 * m - 362) / 12;
      assert TruncDiv(367 * (m + 1) - 362, 12) == (367 * (m + 1) - 362) / 12;
    }
  }

  /** Counting multiples of 4 one year further, forward from `y` or back from `-y`, passes one more exactly when `y` is one. */
  lemma QuadrennialStep(y: int)
    ensures (y + 4) / 4 == (y + 3) / 4 + (if y % 4 == 0 then 1 else 0)
    ensures (-y) / 4 == (-y - 1) / 4 + (if y % 4 == 0 then 1 else 0)
  {
    var q, r := y / 4, y % 4;
    assert y == 4 * q + r && 0 <= r < 4;
    if r == 0 {
      assert y + 4 == 4 * (q + 1) && y + 3 == 4 * q + 3;
      assert -y == 4 * -q && -y - 1 == 4 * (-q - 1) + 3;
    } else {
      assert y + 4 == 4 * (q + 1) + r && y + 3 == 4 * (q + 1) + (r - 1);
      assert -y == 4 * (-q - 1) + (4 - r) && -y - 1 == 4 * (-q - 1) + (3 - r);
    }
  }

  /** Counting multiples of 100 one year further, forward from `y` or back from `-y`, passes one more exactly when `y` is one. */
  lemma CenturyStep(y: int)
    ensures (y + 100) / 100 == (y + 99) / 100 + (if y % 100 == 0 then 1 else 0)
    ensures (-y) / 100 == (-y - 1) / 100 + (if y % 100 == 0 then 1 else 0)
  {
    var q, r := y / 100, y % 100;
    assert y == 100 * q + r && 0 <= r < 100;
    if r == 0 {
      assert y + 100 == 100 * (q + 1) && y + 99 == 100 * q + 99;
      assert -y == 100 * -q && -y - 1 == 100 * (-q - 1) + 99;
    } else {
      assert y + 100 == 100 * (q + 1) + r && y + 99 == 100 * (q + 1) + (r - 1);
      assert -y == 100 * (-q - 1) + (100 - r) && -y - 1 == 100 * (-q - 1) + (99 - r);
    }
  }

  /** Counting multiples of 400 one year further, forward from `y` or back from `-y`, passes one more exactly when `y` is one. */
  lemma QuadricentennialStep(y: int)
    ensures (y + 400) / 400 == (y + 399) / 400 + (if y % 400 == 0 then 1 else 0)
    ensures (-y) / 400 == (-y - 1) / 400 + (if y % 400 == 0 then 1 else 0)
  {
    var q, r := y / 400, y % 400;
    assert y == 400 * q + r && 0 <= r < 400;
    if r == 0 {
      assert y + 400 == 400 * (q + 1) && y + 399 == 400 * q + 399;
      assert -y == 400 * -q && -y - 1 == 400 * (-q - 1) + 399;
    } else {
      assert y + 400 == 400 * (q + 1) + r && y + 399 == 400 * (q + 1) + (r - 1);
      assert -y == 400 * (-q - 1) + (400 - r) && -y - 1 == 400 * (-q - 1) + (399 - r);
    }
  }

  /** A multiple of 400 is a multiple of 100. */
  lemma QuadricentennialIsCentury(y: int)
    requires y % 400 == 0
    ensures y % 100 == 0
  {
    var k := 4 * (y / 400);
    assert y == 100 * k;
  }

  /** A multiple of 100 is a multiple of 4. */
  lemma CenturyIsQuadrennial(y: int)
    requires y % 100 == 0
    ensures y % 4 == 0
  {
    var k := 25 * (y / 100);
    assert y == 4 * k;
  }

  /** The leap-year test as the three counts see it: one per multiple of 4, less one per century, plus one per 400 years. */
  lemma LeapYearCounts(y: int)
    ensures (if IsLeapYear(y) then 1 else 0) ==
      (if y % 4 == 0 then 1 else 0) - (if y % 100 == 0 then 1 else 0) + (if y % 400 == 0 then 1 else 0)
  {
    if y % 400 == 0 {
      QuadricentennialIsCentury(y);
    }
    if y % 100 == 0 {
      CenturyIsQuadrennial(y);
    }
  }

  /** One more year adds one leap day exactly when that year is a leap year: years from 0 on. */
  lemma LeapDaysStepFromZero(y: int)
    requires y >= 0
    ensures LeapDaysBefore(y + 1) == LeapDaysBefore(y) + if IsLeapYear(y) then 1 else 0
  {
    QuadrennialStep(y);
    CenturyStep(y);
    QuadricentennialStep(y);
    LeapYearCounts(y);
  }

  /** The same for the years before 0, where the JDK divides toward zero. */
  lemma LeapDaysStepBeforeZero(y: int)
    requires y < 0
    ensures LeapDaysBefore(y + 1) == LeapDaysBefore(y) + if IsLeapYear(y) then 1 else 0
  {
    assert TruncDiv(y, -4) == (-y) / 4 && TruncDiv(y, -100) == (-y) / 100 && TruncDiv(y, -400) == (-y) / 400;
    if y == -1 {
      assert LeapDaysBefore(y + 1) == 0;
    } else {
      assert TruncDiv(y + 1, -4) == (-y - 1) / 4;
      assert TruncDiv(y + 1, -100) == (-y - 1) / 100;
      assert TruncDiv(y + 1, -400) == (-y - 1) / 400;
      QuadrennialStep(y);
      CenturyStep(y);
      QuadricentennialStep(y);
      LeapYearCounts(y);
    }
  }

  /** New Year's day of the next year lies 365 days later, or 366 after a leap year, for every year. */
  lemma NextYear(y: int)
    ensures EpochDay(StartOfDay(y + 1, 1, 1)) - EpochDay(StartOfDay(y, 1, 1)) ==
      if IsLeapYear(y) then 366 else 365
  {
    if y >= 0 {
      LeapDaysStepFromZero(y);
    } else {
      LeapDaysStepBeforeZero(y);
    }
    assert TruncDiv(367 * 1 - 362, 12) == 0;
  }

  /** The epoch itself and the second before it. */
  lemma EpochInstants()
    ensures ToInstantUtc(LocalDateTime(1970, 1, 1, 0, 0, 0)) == 0
    ensures ToInstantUtc(LocalDateTime(1969, 12, 31, 23, 59, 59)) == -1
  {
    assert EpochDay(LocalDateTime(1970, 1, 1, 0, 0, 0)) == 0;
    assert EpochDay(LocalDateTime(1969, 12, 31, 23, 59, 59)) == -1;
  }

  /** 2024-01-01 08:00:00 read as UTC, and the leap day of 2024 counted. */
  lemma Instants2024()
    ensures ToInstantUtc(LocalDateTime(2024, 1, 1, 8, 0, 0)) == 1704096000
    ensures EpochDay(LocalDateTime(2024, 3, 1, 0, 0, 0)) - EpochDay(LocalDateTime(2024, 2, 28, 0, 0, 0)) == 2
  {
    assert EpochDay(LocalDateTime(2024, 1, 1, 8, 0, 0)) == 19723;
    assert EpochDay(LocalDateTime(2024, 3, 1, 0, 0, 0)) == 19783;
    assert EpochDay(LocalDateTime(2024, 2, 28, 0, 0, 0)) == 19781;
  }
}
