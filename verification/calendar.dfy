/**
 * The calendar arithmetic behind `new Date(ms).toISOString().slice(0, 10)`:
 * the day number of a time value, the proleptic Gregorian year, month and
 * day of that day, as the ECMAScript language specification defines them
 * (DayFromYear, YearFromTime, MonthFromTime, DateFromTime), and the
 * `YYYY-MM-DD` key printed from them.
 */
module Calendar {
  import opened Wrappers
  import opened Text

  const MsPerDay: int := 86400000
  /** `new Date(ms)` is an invalid date when `|ms|` exceeds this; `toISOString` then throws. */
  const MaxTime: int := 8640000000000000

  datatype Date = Date(year: int, month: int, day: int)

  /** The day number of a time value: `floor(ms / msPerDay)`. */
  function DayOf(ms: int): (z: int)
    ensures z * MsPerDay <= ms < (z + 1) * MsPerDay
  {
    ms / MsPerDay
  }

  function DaysInYear(y: int): (n: int)
    ensures n == 365 || n == 366
  {
    if y % 4 != 0 then 365
    else if y % 100 != 0 then 366
    else if y % 400 != 0 then 365
    else 366
  }

  /** The day number of 1 January of year `y`. */
  function DayFromYear(y: int): int {
    365 * (y - 1970) + (y - 1969) / 4 - (y - 1901) / 100 + (y - 1601) / 400
  }

  lemma QuarterStep(y: int)
    ensures (y - 1968) / 4 == (y - 1969) / 4 + (if y % 4 == 0 then 1 else 0)
  {
    assert (y - 1968) % 4 == y % 4;
  }

  lemma CenturyStep(y: int)
    ensures (y - 1900) / 100 == (y - 1901) / 100 + (if y % 100 == 0 then 1 else 0)
  {
    assert (y - 1900) % 100 == y % 100;
  }

  lemma CycleStep(y: int)
    ensures (y - 1600) / 400 == (y - 1601) / 400 + (if y % 400 == 0 then 1 else 0)
  {
    assert (y - 1600) % 400 == y % 400;
  }

  /** Centuries are multiples of 4, and multiples of 400 are centuries. */
  lemma DivisorsNest(y: int)
    ensures y % 100 == 0 ==> y % 4 == 0
    ensures y % 400 == 0 ==> y % 100 == 0
  {
    if y % 100 == 0 {
      var m := 25 * (y / 100);
      assert y == 4 * m;
      assert y / 4 == m;
    }
    if y % 400 == 0 {
      var m := 4 * (y / 400);
      assert y == 100 * m;
      assert y / 100 == m;
    }
  }

  /** Consecutive years start `DaysInYear` days apart. */
  lemma DayFromYearNext(y: int)
    ensures DayFromYear(y + 1) == DayFromYear(y) + DaysInYear(y)
  {
    QuarterStep(y);
    CenturyStep(y);
    CycleStep(y);
    DivisorsNest(y);
  }

  /** Every 400 years the calendar repeats after 146097 days; year 1970 starts day 0. */
  lemma DayFromYearCycle(q: int)
    ensures DayFromYear(1970 + 400 * q) == 146097 * q
  {
    assert (1970 + 400 * q - 1969) / 4 == 100 * q;
    assert (1970 + 400 * q - 1901) / 100 == 4 * q;
    assert (1970 + 400 * q - 1601) / 400 == q;
  }

  /** Later years start later. */
  lemma {:induction false} DayFromYearIncreasing(a: int, b: int)
    requires a < b
    ensures DayFromYear(a) < DayFromYear(b)
    decreases b - a
  {
    DayFromYearNext(a);
    if a + 1 < b {
      DayFromYearIncreasing(a + 1, b);
    }
  }

  /** The year containing day `z`, searched upward from `y` below the bound `top`. */
  function FindYear(z: int, y: int, top: int): (r: int)
    requires DayFromYear(y) <= z < DayFromYear(top)
    ensures DayFromYear(r) <= z < DayFromYear(r + 1)
    decreases top - y
  {
    if z < DayFromYear(y + 1) then y
    else
      assert y + 1 < top by {
        if top <= y + 1 {
          if top < y + 1 {
            DayFromYearIncreasing(top, y + 1);
          }
        }
      }
      FindYear(z, y + 1, top)
  }

  /**
   * YearFromTime: the year whose first day is at or before day `z` and
   * whose successor's first day is after it. The search starts at the
   * 400-year cycle (146097 days) holding `z`.
   */
  function YearFromDay(z: int): (y: int)
    ensures DayFromYear(y) <= z < DayFromYear(y + 1)
  {
    var q := z / 146097;
    DayFromYearCycle(q);
    DayFromYearCycle(q + 1);
    FindYear(z, 1970 + 400 * q, 1970 + 400 * (q + 1))
  }

  /** Only one year's days hold a given day, so YearFromDay finds the largest year starting at or before it. */
  lemma YearsEqual(z: int, y1: int, y2: int)
    requires DayFromYear(y1) <= z < DayFromYear(y1 + 1)
    requires DayFromYear(y2) <= z < DayFromYear(y2 + 1)
    ensures y1 == y2
  {
    if y1 + 1 < y2 {
      DayFromYearIncreasing(y1 + 1, y2);
    } else if y2 + 1 < y1 {
      DayFromYearIncreasing(y2 + 1, y1);
    }
  }

  /** Days before the first of each month in a common year, and before the next year. */
  const CumulativeDays: seq<int> := [0, 31, 59, 90, 120, 151, 181, 212, 243, 273, 304, 334, 365]

  /** Day-within-year on which month `m` (1..13, 13 meaning the next year) starts. */
  function MonthStart(m: int, leap: int): int
    requires 1 <= m <= 13
  {
    CumulativeDays[m - 1] + (if m >= 3 then leap else 0)
  }

  lemma MonthStartMonotone(a: int, b: int, leap: int)
    requires 1 <= a <= b <= 13 && (leap == 0 || leap == 1)
    ensures MonthStart(a, leap) <= MonthStart(b, leap)
  {
  }

  /** The last month, counting down from `m`, that starts on or before day `d`. */
  function FindMonth(d: int, leap: int, m: int): (r: int)
    requires 1 <= m <= 12 && (leap == 0 || leap == 1)
    requires 0 <= d < MonthStart(m + 1, leap)
    ensures 1 <= r <= m && MonthStart(r, leap) <= d < MonthStart(r + 1, leap)
  {
    if MonthStart(m, leap) <= d || m == 1 then m else FindMonth(d, leap, m - 1)
  }

  /**
   * The calendar date of day number `z`, as YearFromTime, MonthFromTime
   * and DateFromTime define it: the year whose days hold `z`, the month
   * whose days within that year hold it, and the offset into that month.
   */
  function CivilFromDays(z: int): (r: Date)
    ensures DayFromYear(r.year) <= z < DayFromYear(r.year + 1)
    ensures 1 <= r.month <= 12 && 1 <= r.day <= 31
    ensures var leap := DaysInYear(r.year) - 365;
      var d := z - DayFromYear(r.year);
      MonthStart(r.month, leap) <= d < MonthStart(r.month + 1, leap) &&
      r.day == d - MonthStart(r.month, leap) + 1
  {
    var y := YearFromDay(z);
    DayFromYearNext(y);
    var leap := DaysInYear(y) - 365;
    var d := z - DayFromYear(y);
    var m := FindMonth(d, leap, 12);
    Date(y, m, d - MonthStart(m, leap) + 1)
  }

  /** A day before another lies in the same year or an earlier one. */
  lemma YearsOrdered(z1: int, z2: int, y1: int, y2: int)
    requires z1 < z2 && DayFromYear(y1) <= z1 && z2 < DayFromYear(y2 + 1)
    ensures y1 <= y2
  {
    if y2 + 1 < y1 {
      DayFromYearIncreasing(y2 + 1, y1);
    }
  }

  /** Two days of one year, `d1` before `d2`, have dates in the same order. */
  lemma WithinYear(d1: int, d2: int, leap: int, a: Date, b: Date)
    requires d1 < d2 && (leap == 0 || leap == 1) && a.year == b.year
    requires 1 <= a.month <= 12 && MonthStart(a.month, leap) <= d1 < MonthStart(a.month + 1, leap)
    requires 1 <= b.month <= 12 && MonthStart(b.month, leap) <= d2 < MonthStart(b.month + 1, leap)
    requires a.day == d1 - MonthStart(a.month, leap) + 1 && b.day == d2 - MonthStart(b.month, leap) + 1
    ensures DateLt(a, b)
  {
    if b.month < a.month {
      MonthStartMonotone(b.month + 1, a.month, leap);
    }
  }

  /** Later days never have earlier dates: dates of distinct days differ, in the same order. */
  lemma CivilIncreasing(z1: int, z2: int)
    requires z1 < z2
    ensures DateLt(CivilFromDays(z1), CivilFromDays(z2))
  {
    var a, b := CivilFromDays(z1), CivilFromDays(z2);
    YearsOrdered(z1, z2, a.year, b.year);
    if a.year == b.year {
      var y0 := DayFromYear(a.year);
      WithinYear(z1 - y0, z2 - y0, DaysInYear(a.year) - 365, a, b);
    }
  }

  predicate DateLt(a: Date, b: Date) {
    a.year < b.year
    || (a.year == b.year && a.month < b.month)
    || (a.year == b.year && a.month == b.month && a.day < b.day)
  }

  /** The year as `toISOString` prints it: four digits, or a sign and six digits outside 0..9999. */
  function YearText(y: int): string {
    if 0 <= y <= 9999 then Digits(y, 4)
    else (if y < 0 then "-" else "+") + Digits(if y < 0 then -y else y, 6)
  }

  /** The date part `YYYY-MM-DD` of the ISO string (longer for extended years). */
  function IsoDate(r: Date): (s: string)
    ensures |s| >= 10
  {
    YearText(r.year) + ("-" + (Digits(r.month, 2) + ("-" + Digits(r.day, 2))))
  }

  /**
   * `new Date(ms).toISOString().slice(0, 10)`; `None` where the source
   * throws a RangeError because the time value is out of range.
   */
  function DayKey(ms: int): (r: Option<string>)
    ensures r.None? <==> (ms < -MaxTime || MaxTime < ms)
    ensures r.Some? ==> |r.value| == 10
  {
    if ms < -MaxTime || MaxTime < ms then None
    else Some(KeyOfDay(DayOf(ms)))
  }

  /** The first ten characters of the ISO date of day `z`. */
  function KeyOfDay(z: int): (k: string)
    ensures |k| == 10
  {
    IsoDate(CivilFromDays(z))[..10]
  }

  /** The time value falls in a year that `toISOString` prints with four digits. */
  predicate InFourDigitYears(ms: int) {
    -MaxTime <= ms <= MaxTime && 0 <= CivilFromDays(DayOf(ms)).year <= 9999
  }

  /** Four-digit-year keys compare as the dates they spell. */
  lemma KeyOrder(r1: Date, r2: Date)
    requires 0 <= r1.year <= 9999 && 1 <= r1.month <= 12 && 1 <= r1.day <= 31
    requires 0 <= r2.year <= 9999 && 1 <= r2.month <= 12 && 1 <= r2.day <= 31
    requires DateLt(r1, r2)
    ensures LexLe(IsoDate(r1), IsoDate(r2)) && !LexLe(IsoDate(r2), IsoDate(r1))
  {
    assert Pow10(2) == 100;
    assert Pow10(4) == 10000;
    var y1, y2 := Digits(r1.year, 4), Digits(r2.year, 4);
    var m1, m2 := Digits(r1.month, 2), Digits(r2.month, 2);
    var d1, d2 := Digits(r1.day, 2), Digits(r2.day, 2);
    var t1, t2 := "-" + d1, "-" + d2;
    var u1, u2 := m1 + t1, m2 + t2;
    var v1, v2 := "-" + u1, "-" + u2;
    LexConcat(y1, v1, y2, v2);
    LexConcat(y2, v2, y1, v1);
    DigitsOrder(r1.year, r2.year, 4);
    DigitsOrder(r2.year, r1.year, 4);
    if r1.year == r2.year {
      LexConcat("-", u1, "-", u2);
      LexConcat("-", u2, "-", u1);
      LexConcat(m1, t1, m2, t2);
      LexConcat(m2, t2, m1, t1);
      DigitsOrder(r1.month, r2.month, 2);
      DigitsOrder(r2.month, r1.month, 2);
      if r1.month == r2.month {
        LexConcat("-", d1, "-", d2);
        LexConcat("-", d2, "-", d1);
        DigitsOrder(r1.day, r2.day, 2);
        DigitsOrder(r2.day, r1.day, 2);
      }
    }
  }

  /** In years 0..9999 the ISO date is exactly ten characters, so the key is all of it. */
  lemma KeyOfFourDigitDay(z: int)
    requires 0 <= CivilFromDays(z).year <= 9999
    ensures KeyOfDay(z) == IsoDate(CivilFromDays(z))
  {
    var x := IsoDate(CivilFromDays(z));
    assert |x| == 10;
    assert x[..10] == x;
  }

  /** Keys of two days in years 0..9999 compare as the days do. */
  lemma KeyOfDayOrder(z1: int, z2: int)
    requires z1 < z2
    requires 0 <= CivilFromDays(z1).year <= 9999 && 0 <= CivilFromDays(z2).year <= 9999
    ensures LexLe(KeyOfDay(z1), KeyOfDay(z2)) && !LexLe(KeyOfDay(z2), KeyOfDay(z1))
  {
    KeyOfFourDigitDay(z1);
    KeyOfFourDigitDay(z2);
    CivilIncreasing(z1, z2);
    KeyOrder(CivilFromDays(z1), CivilFromDays(z2));
  }

  /**
   * Within years 0..9999, day keys sort exactly as the days they name,
   * and two time values share a key iff they fall on the same day. So
   * sorting keys with a string comparison sorts them chronologically.
   */
  lemma DayKeyOrder(a: int, b: int)
    requires InFourDigitYears(a) && InFourDigitYears(b)
    ensures DayKey(a).Some? && DayKey(b).Some?
    ensures LexLe(DayKey(a).value, DayKey(b).value) <==> DayOf(a) <= DayOf(b)
    ensures DayKey(a) == DayKey(b) <==> DayOf(a) == DayOf(b)
  {
    var za, zb := DayOf(a), DayOf(b);
    if za < zb {
      KeyOfDayOrder(za, zb);
    } else if zb < za {
      KeyOfDayOrder(zb, za);
      LexLeTotal(KeyOfDay(za), KeyOfDay(zb));
    } else {
      LexLeTotal(KeyOfDay(za), KeyOfDay(za));
    }
  }

  /** A key in years 0..9999 holds only digits and dashes. */
  lemma FourDigitKeyChars(ms: int)
    requires InFourDigitYears(ms)
    ensures DayKey(ms).Some? && DigitsAndDashes(DayKey(ms).value)
  {
    var r := CivilFromDays(DayOf(ms));
    KeyOfFourDigitDay(DayOf(ms));
    var y, m, d := Digits(r.year, 4), Digits(r.month, 2), Digits(r.day, 2);
    var k := y + ("-" + (m + ("-" + d)));
    assert k == IsoDate(r);
    forall i | 0 <= i < |k| ensures k[i] == '-' || '0' <= k[i] <= '9' {
      if i < 4 {
        assert k[i] == y[i];
      } else if 5 <= i < 7 {
        assert k[i] == m[i - 5];
      } else if 8 <= i {
        assert k[i] == d[i - 8];
      }
    }
  }

  /** Day 0 is 1 January 1970. */
  lemma EpochDate(z: int)
    requires z == 0
    ensures CivilFromDays(z) == Date(1970, 1, 1)
  {
    var r := CivilFromDays(z);
    assert DayFromYear(1970) == 0 && DayFromYear(1971) == 365;
    YearsEqual(z, r.year, 1970);
    assert DaysInYear(1970) == 365;
    if r.month >= 2 {
      MonthStartMonotone(2, r.month, 0);
    }
  }

  /** Day -1 is 31 December 1969. */
  lemma EveOfEpochDate(z: int)
    requires z == -1
    ensures CivilFromDays(z) == Date(1969, 12, 31)
  {
    var r := CivilFromDays(z);
    assert DayFromYear(1969) == -365 && DayFromYear(1970) == 0;
    YearsEqual(z, r.year, 1969);
    assert DaysInYear(1969) == 365;
    if r.month < 12 {
      MonthStartMonotone(r.month + 1, 12, 0);
    }
  }

  lemma EpochText(r: Date)
    requires r == Date(1970, 1, 1)
    ensures IsoDate(r) == "1970-01-01"
  {
    var y, m := Digits(1970, 4), Digits(1, 2);
    assert y == "1970";
    assert m == "01";
    assert IsoDate(r) == y + ("-" + (m + ("-" + m)));
  }

  lemma EveOfEpochText(r: Date)
    requires r == Date(1969, 12, 31)
    ensures IsoDate(r) == "1969-12-31"
  {
    var y, m, d := Digits(1969, 4), Digits(12, 2), Digits(31, 2);
    assert y == "1969";
    assert m == "12";
    assert d == "31";
    assert IsoDate(r) == y + ("-" + (m + ("-" + d)));
  }

  /** The epoch falls on 1970-01-01. */
  lemma EpochKey(ms: int)
    requires ms == 0
    ensures DayKey(ms) == Some("1970-01-01")
  {
    var z := DayOf(ms);
    EpochDate(z);
    KeyOfFourDigitDay(z);
    EpochText(CivilFromDays(z));
  }

  /** The millisecond before the epoch falls on 1969-12-31. */
  lemma EveOfEpochKey(ms: int)
    requires ms == -1
    ensures DayKey(ms) == Some("1969-12-31")
  {
    var z := DayOf(ms);
    EveOfEpochDate(z);
    KeyOfFourDigitDay(z);
    EveOfEpochText(CivilFromDays(z));
  }
}
