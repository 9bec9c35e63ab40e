/** Local date and time, counted as Python's `datetime` counts them. */
module Calendar {

  datatype Civil = Civil(year: int, month: int, day: int, hour: int, minute: int, second: int)

  predicate IsLeap(year: int) { year % 4 == 0 && (year % 100 != 0 || year % 400 == 0) }

  function DaysIn(year: int, month: int): (n: int)
    ensures 28 <= n <= 31
  {
    if month == 2 then if IsLeap(year) then 29 else 28
    else if month == 4 || month == 6 || month == 9 || month == 11 then 30
    else 31
  }

  /** A date and time that exists. */
  predicate Exists(c: Civil) {
    && 1 <= c.year <= 9999 && 1 <= c.month <= 12 && 1 <= c.day <= DaysIn(c.year, c.month)
    && 0 <= c.hour < 24 && 0 <= c.minute < 60 && 0 <= c.second < 60
  }

  type Stamp = c: Civil | Exists(c) witness Civil(1, 1, 1, 0, 0, 0)

  function DaysBeforeMonth(year: int, month: int): int
    decreases month
  {
    if month <= 1 then 0 else DaysBeforeMonth(year, month - 1) + DaysIn(year, month - 1)
  }

  function DaysBeforeYear(year: int): int
    decreases year
  {
    if year <= 1 then 0 else DaysBeforeYear(year - 1) + DaysInYear(year - 1)
  }

  function DaysInYear(year: int): int { if IsLeap(year) then 366 else 365 }

  /** Days since 1 January of the year 1, which was a Monday. */
  function DayNumber(c: Civil): int {
    DaysBeforeYear(c.year) + DaysBeforeMonth(c.year, c.month) + c.day - 1
  }

  function Seconds(c: Civil): int {
    86400 * DayNumber(c) + 3600 * c.hour + 60 * c.minute + c.second
  }

  /** The digits `YYYYMMDD` and `HHMMSS` read as numbers. */
  function DateDigits(c: Civil): int { 10000 * c.year + 100 * c.month + c.day }

  function TimeDigits(c: Civil): int { 10000 * c.hour + 100 * c.minute + c.second }

  /** Earlier by the written digits. */
  predicate Precedes(a: Civil, b: Civil) {
    DateDigits(a) < DateDigits(b) || (DateDigits(a) == DateDigits(b) && TimeDigits(a) < TimeDigits(b))
  }

  predicate NotAfter(a: Civil, b: Civil) { !Precedes(b, a) }

  // ------------------------------------------------------------------- order

  lemma {:induction false} MonthsIncrease(year: int, a: int, b: int)
    requires 1 <= a < b
    ensures DaysBeforeMonth(year, a) + DaysIn(year, a) <= DaysBeforeMonth(year, b)
    decreases b
  {
    if a + 1 < b {
      MonthsIncrease(year, a, b - 1);
    }
  }

  lemma {:induction false} YearsIncrease(a: int, b: int)
    requires 1 <= a < b
    ensures DaysBeforeYear(a) + DaysInYear(a) <= DaysBeforeYear(b)
    decreases b
  {
    if a + 1 < b {
      YearsIncrease(a, b - 1);
    }
  }

  /** The months fill the year. */
  lemma {:induction false} MonthsFillYear(year: int)
    ensures DaysBeforeMonth(year, 13) == DaysInYear(year)
  {
  }

  lemma {:induction false} MonthsAddUp(year: int, month: int)
    ensures DaysBeforeMonth(year, month) >= 0
    decreases month
  {
    if month > 1 {
      MonthsAddUp(year, month - 1);
    }
  }

  lemma DayInsideYear(c: Civil)
    requires Exists(c)
    ensures DaysBeforeYear(c.year) <= DayNumber(c) < DaysBeforeYear(c.year) + DaysInYear(c.year)
  {
    MonthsAddUp(c.year, c.month);
    MonthsFillYear(c.year);
    MonthsIncrease(c.year, c.month, 13);
  }

  /** Two-digit groups compare from the left. */
  lemma GroupsCompare(y: int, m: int, d: int, y': int, m': int, d': int)
    requires 0 <= m < 100 && 0 <= d < 100 && 0 <= m' < 100 && 0 <= d' < 100
    ensures 10000 * y + 100 * m + d < 10000 * y' + 100 * m' + d' <==>
            y < y' || (y == y' && (m < m' || (m == m' && d < d')))
    ensures 10000 * y + 100 * m + d == 10000 * y' + 100 * m' + d' <==> y == y' && m == m' && d == d'
  {
  }

  lemma DatesIncrease(a: Civil, b: Civil)
    requires Exists(a) && Exists(b) && DateDigits(a) < DateDigits(b)
    ensures DayNumber(a) < DayNumber(b)
  {
    GroupsCompare(a.year, a.month, a.day, b.year, b.month, b.day);
    if a.year < b.year {
      DayInsideYear(a);
      DayInsideYear(b);
      YearsIncrease(a.year, b.year);
    } else if a.month < b.month {
      MonthsIncrease(a.year, a.month, b.month);
    }
  }

  lemma SameDigitsSameTime(a: Civil, b: Civil)
    requires Exists(a) && Exists(b) && DateDigits(a) == DateDigits(b)
    ensures DayNumber(a) == DayNumber(b) && a.year == b.year && a.month == b.month
    ensures TimeDigits(a) == TimeDigits(b) <==> a == b
  {
    GroupsCompare(a.year, a.month, a.day, b.year, b.month, b.day);
    GroupsCompare(a.hour, a.minute, a.second, b.hour, b.minute, b.second);
  }

  lemma TimesIncrease(h: int, m: int, s: int, h': int, m': int, s': int)
    requires 0 <= m < 60 && 0 <= s < 60 && 0 <= m' < 60 && 0 <= s' < 60
    ensures 10000 * h + 100 * m + s < 10000 * h' + 100 * m' + s' <==> 3600 * h + 60 * m + s < 3600 * h' + 60 * m' + s'
  {
    GroupsCompare(h, m, s, h', m', s');
  }

  lemma DigitsIncrease(a: Civil, b: Civil)
    requires Exists(a) && Exists(b) && Precedes(a, b)
    ensures Seconds(a) < Seconds(b)
  {
    if DateDigits(a) < DateDigits(b) {
      DatesIncrease(a, b);
    } else {
      SameDigitsSameTime(a, b);
      TimesIncrease(a.hour, a.minute, a.second, b.hour, b.minute, b.second);
    }
  }

  /** The written digits are in the order of time. */
  lemma DigitsOrderTime(a: Civil, b: Civil)
    requires Exists(a) && Exists(b)
    ensures Precedes(a, b) <==> Seconds(a) < Seconds(b)
    ensures a == b <==> Seconds(a) == Seconds(b)
  {
    if Precedes(a, b) {
      DigitsIncrease(a, b);
    } else if Precedes(b, a) {
      DigitsIncrease(b, a);
    } else {
      SameDigitsSameTime(a, b);
    }
  }

  // ----------------------------------------------------------------- periods

  /** Anything but weekly and monthly counts as daily. */
  datatype Interval = Daily | Weekly | Monthly

  /** A number for the day, ISO week or month. */
  function PeriodOf(interval: Interval, c: Civil): int {
    match interval
    case Daily => DayNumber(c)
    case Weekly => DayNumber(c) / 7
    case Monthly => 12 * c.year + c.month
  }

  /** Periods follow one another. */
  lemma PeriodsFollow(interval: Interval, a: Civil, b: Civil)
    requires Exists(a) && Exists(b) && NotAfter(a, b)
    ensures PeriodOf(interval, a) <= PeriodOf(interval, b)
  {
    if DateDigits(a) < DateDigits(b) {
      DatesIncrease(a, b);
      GroupsCompare(a.year, a.month, a.day, b.year, b.month, b.day);
    } else {
      SameDigitsSameTime(a, b);
    }
  }

  /** The day after. */
  function NextDate(c: Civil): Civil {
    if c.day < DaysIn(c.year, c.month) then c.(day := c.day + 1)
    else if c.month < 12 then c.(month := c.month + 1, day := 1)
    else c.(year := c.year + 1, month := 1, day := 1)
  }

  /** Days are counted one after the other from a Monday on. */
  lemma DaysAreCounted(c: Civil)
    requires Exists(c)
    ensures DayNumber(NextDate(c)) == DayNumber(c) + 1
    ensures c.year == 1 && c.month == 1 && c.day == 1 ==> DayNumber(c) == 0
  {
    if c.day == DaysIn(c.year, c.month) && c.month == 12 {
      WholeYear(c.year);
    }
  }

  lemma {:induction false} WholeYear(year: int)
    ensures DaysBeforeMonth(year, 12) + 31 == DaysInYear(year)
    ensures DaysBeforeMonth(year, 1) == 0
  {
    assert DaysBeforeMonth(year, 2) == 31 && DaysBeforeMonth(year, 3) == 31 + DaysIn(year, 2);
    assert DaysBeforeMonth(year, 4) == 62 + DaysIn(year, 2) && DaysBeforeMonth(year, 5) == 92 + DaysIn(year, 2);
    assert DaysBeforeMonth(year, 6) == 123 + DaysIn(year, 2) && DaysBeforeMonth(year, 7) == 153 + DaysIn(year, 2);
    assert DaysBeforeMonth(year, 8) == 184 + DaysIn(year, 2) && DaysBeforeMonth(year, 9) == 215 + DaysIn(year, 2);
    assert DaysBeforeMonth(year, 10) == 245 + DaysIn(year, 2) && DaysBeforeMonth(year, 11) == 276 + DaysIn(year, 2);
  }

  /** One day more every fourth year, but not in the hundredth, and yet in the four hundredth. */
  lemma {:induction false} YearsAreCounted(year: int)
    requires year >= 1
    ensures DaysBeforeYear(year) == 365 * (year - 1) + (year - 1) / 4 - (year - 1) / 100 + (year - 1) / 400
    decreases year
  {
    if year > 1 {
      YearsAreCounted(year - 1);
      LeapDay(year - 1);
    }
  }

  lemma LeapDay(year: int)
    requires year >= 1
    ensures var before := year - 1;
            year / 4 - year / 100 + year / 400 ==
            before / 4 - before / 100 + before / 400 + DaysInYear(year) - 365
  {
    Quotients(year, 4);
    Quotients(year, 100);
    Quotients(year, 400);
  }

  lemma Quotients(n: int, d: int)
    requires n >= 1 && (d == 4 || d == 100 || d == 400)
    ensures n / d == (n - 1) / d + if n % d == 0 then 1 else 0
  {
  }

  /** Two times are in one period exactly when they are on one day, in one week from Monday to Sunday, or in
      one month of one year. */
  lemma SamePeriodIff(interval: Interval, a: Civil, b: Civil)
    requires Exists(a) && Exists(b)
    ensures PeriodOf(interval, a) == PeriodOf(interval, b) <==>
            match interval
            case Daily => (a.year, a.month, a.day) == (b.year, b.month, b.day)
            case Weekly => exists monday :: InWeekOf(monday, a) && InWeekOf(monday, b)
            case Monthly => (a.year, a.month) == (b.year, b.month)
  {
    match interval
    case Daily =>
      if DateDigits(a) < DateDigits(b) {
        DatesIncrease(a, b);
      } else if DateDigits(b) < DateDigits(a) {
        DatesIncrease(b, a);
      } else {
        SameDigitsSameTime(a, b);
      }
    case Weekly =>
      assert InWeekOf(7 * (DayNumber(a) / 7), a);
      if DayNumber(a) / 7 == DayNumber(b) / 7 {
        assert InWeekOf(7 * (DayNumber(a) / 7), b);
      }
    case Monthly =>
  }

  /** The week of seven days that begins with this day, a Monday. */
  predicate InWeekOf(monday: int, c: Civil) { monday % 7 == 0 && monday <= DayNumber(c) < monday + 7 }
}
