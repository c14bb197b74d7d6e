/** The proleptic Gregorian calendar of Python's `datetime.date`, and the
    conversion from a POSIX epoch-seconds value to the UTC calendar date, as
    `datetime.utcfromtimestamp(value).date()` performs it.

    Days are numbered relative to 1970-01-01 (day 0). */
module Calendar {
  import opened Wrappers

  datatype CivilDate = CivilDate(year: int, month: int, day: int)

  predicate IsLeap(y: int) {
    y % 4 == 0 && (y % 100 != 0 || y % 400 == 0)
  }

  function DaysInYear(y: int): int {
    if IsLeap(y) then 366 else 365
  }

  /** Days in the months of year `y` that come before month `m` (1 <= m <= 13). */
  function DaysBeforeMonth(y: int, m: int): int
    requires 1 <= m <= 13
  {
    var common :=
      if m == 1 then 0 else if m == 2 then 31 else if m == 3 then 59
      else if m == 4 then 90 else if m == 5 then 120 else if m == 6 then 151
      else if m == 7 then 181 else if m == 8 then 212 else if m == 9 then 243
      else if m == 10 then 273 else if m == 11 then 304 else if m == 12 then 334
      else 365;
    common + (if IsLeap(y) && m > 2 then 1 else 0)
  }

  function DaysInMonth(y: int, m: int): int
    requires 1 <= m <= 12
  {
    DaysBeforeMonth(y, m + 1) - DaysBeforeMonth(y, m)
  }

  predicate ValidDate(d: CivilDate) {
    1 <= d.month <= 12 && 1 <= d.day <= DaysInMonth(d.year, d.month)
  }

  /** A calendar date as `datetime.date` holds it. */
  type Date = d: CivilDate | ValidDate(d) witness CivilDate(1970, 1, 1)

  /** Python's `datetime.MINYEAR` and `datetime.MAXYEAR`. */
  const MinYear := 1
  const MaxYear := 9999

  /** Day number of January 1st of year `y`. */
  function DaysBeforeYear(y: int): int
    decreases if y < 1970 then 1970 - y else y - 1970
  {
    if y == 1970 then 0
    else if y > 1970 then DaysBeforeYear(y - 1) + DaysInYear(y - 1)
    else DaysBeforeYear(y + 1) - DaysInYear(y)
  }

  lemma DaysBeforeNextYear(y: int)
    ensures DaysBeforeYear(y + 1) == DaysBeforeYear(y) + DaysInYear(y)
  {
  }

  /** Years are laid out back to back: a later year starts after an earlier one ends. */
  lemma {:induction false} YearsAreOrdered(a: int, b: int)
    requires a < b
    ensures DaysBeforeYear(a + 1) <= DaysBeforeYear(b)
    decreases b - a
  {
    if a + 1 < b {
      YearsAreOrdered(a, b - 1);
      DaysBeforeNextYear(b - 1);
    }
  }

  /** Day number of a date. */
  function DayNumber(d: Date): int {
    DaysBeforeYear(d.year) + DaysBeforeMonth(d.year, d.month) + d.day - 1
  }

  /** The year holding day `z`, searching upwards from year `y`. */
  function YearUp(z: int, y: int): (r: int)
    requires DaysBeforeYear(y) <= z
    ensures DaysBeforeYear(r) <= z < DaysBeforeYear(r + 1)
    decreases z - DaysBeforeYear(y)
  {
    DaysBeforeNextYear(y);
    if z < DaysBeforeYear(y + 1) then y else YearUp(z, y + 1)
  }

  /** The year holding day `z`, searching downwards from year `y`. */
  function YearDown(z: int, y: int): (r: int)
    requires z < DaysBeforeYear(y + 1)
    ensures DaysBeforeYear(r) <= z < DaysBeforeYear(r + 1)
    decreases DaysBeforeYear(y + 1) - z
  {
    DaysBeforeNextYear(y);
    DaysBeforeNextYear(y - 1);
    if DaysBeforeYear(y) <= z then y else YearDown(z, y - 1)
  }

  function YearOf(z: int): (r: int)
    ensures DaysBeforeYear(r) <= z < DaysBeforeYear(r + 1)
  {
    if z >= 0 then YearUp(z, 1970) else YearDown(z, 1969)
  }

  /** The month of year `y` holding day-of-year `doy`, searching from month `m`. */
  function MonthFrom(y: int, doy: int, m: int): (r: int)
    requires 1 <= m <= 12 && DaysBeforeMonth(y, m) <= doy < DaysInYear(y)
    ensures 1 <= r <= 12 && DaysBeforeMonth(y, r) <= doy < DaysBeforeMonth(y, r + 1)
    decreases 12 - m
  {
    if doy < DaysBeforeMonth(y, m + 1) then m else MonthFrom(y, doy, m + 1)
  }

  /** The date of day number `z`. */
  function FromDayNumber(z: int): (d: Date)
    ensures DayNumber(d) == z
  {
    var y := YearOf(z);
    var doy := z - DaysBeforeYear(y);
    var m := MonthFrom(y, doy, 1);
    var day := doy - DaysBeforeMonth(y, m) + 1;
    assert ValidDate(CivilDate(y, m, day)) by {
      assert 1 <= day <= DaysInMonth(y, m);
    }
    CivilDate(y, m, day)
  }

  /** A year's months fill the year in order, each at least one day long. */
  lemma MonthsWithinYear(y: int, m: int)
    requires 1 <= m <= 12
    ensures 0 <= DaysBeforeMonth(y, m) < DaysBeforeMonth(y, m + 1) <= DaysBeforeMonth(y, 13) == DaysInYear(y)
  {
  }

  lemma {:induction false} MonthsAreOrdered(y: int, a: int, b: int)
    requires 1 <= a < b <= 12
    ensures DaysBeforeMonth(y, a + 1) <= DaysBeforeMonth(y, b)
    decreases b - a
  {
    if a + 1 < b {
      MonthsAreOrdered(y, a, b - 1);
      MonthsWithinYear(y, b - 1);
    }
  }

  /** Chronological (year, month, day) order is day-number order. */
  predicate Before(a: CivilDate, b: CivilDate) {
    a.year < b.year
    || (a.year == b.year && a.month < b.month)
    || (a.year == b.year && a.month == b.month && a.day < b.day)
  }

  lemma BeforeIsDayNumberOrder(a: Date, b: Date)
    ensures Before(a, b) <==> DayNumber(a) < DayNumber(b)
  {
    MonthsWithinYear(a.year, a.month);
    MonthsWithinYear(b.year, b.month);
    DaysBeforeNextYear(a.year);
    DaysBeforeNextYear(b.year);
    if a.year < b.year {
      YearsAreOrdered(a.year, b.year);
    } else if b.year < a.year {
      YearsAreOrdered(b.year, a.year);
    } else if a.month < b.month {
      MonthsAreOrdered(a.year, a.month, b.month);
    } else if b.month < a.month {
      MonthsAreOrdered(a.year, b.month, a.month);
    }
  }

  /** Day numbers identify dates: converting a date to its number and back gives the date. */
  lemma DayNumberRoundTrip(d: Date)
    ensures FromDayNumber(DayNumber(d)) == d
  {
    var e := FromDayNumber(DayNumber(d));
    BeforeIsDayNumberOrder(d, e);
    BeforeIsDayNumberOrder(e, d);
  }

  /** Python's rounding of a real to an integer, halves going to the even neighbour. */
  function RoundHalfEven(x: real): (r: int)
    ensures x - 0.5 <= r as real <= x + 0.5
    ensures x - x.Floor as real != 0.5 ==> x - 0.5 < r as real < x + 0.5
    ensures x - x.Floor as real == 0.5 ==> r % 2 == 0
  {
    var f := x.Floor;
    var frac := x - f as real;
    if frac < 0.5 then f
    else if frac > 0.5 then f + 1
    else if f % 2 == 0 then f else f + 1
  }

  const MicrosPerDay := 86_400_000_000

  /** The day `d` holds the instant `micros` microseconds after the epoch. */
  predicate DayHolds(d: Date, micros: int) {
    DayNumber(d) * MicrosPerDay <= micros < (DayNumber(d) + 1) * MicrosPerDay
  }

  /** Euclidean division by a positive divisor has a unique quotient. */
  lemma QuotientIsUnique(n: int, x: int, m: int)
    requires m > 0 && n * m <= x < (n + 1) * m
    ensures n == x / m
  {
    var q := x / m;
    assert q * m <= x < (q + 1) * m;
    assert (n - q - 1) * m == n * m - (q + 1) * m;
    assert (q - n - 1) * m == q * m - (n + 1) * m;
    NegativeFactor(n - q - 1, m);
    NegativeFactor(q - n - 1, m);
  }

  /** A negative product with a positive factor has a negative other factor. */
  lemma NegativeFactor(a: int, m: int)
    requires m > 0 && a * m < 0
    ensures a < 0
  {
  }

  /** Exactly one date holds any instant: the one whose day number is the
      instant's whole days. */
  lemma OnlyDayOfInstant(d: Date, micros: int)
    requires DayHolds(d, micros)
    ensures d == FromDayNumber(micros / MicrosPerDay)
  {
    QuotientIsUnique(DayNumber(d), micros, MicrosPerDay);
    DayNumberRoundTrip(d);
  }

  /** UTC calendar date of `seconds` after the epoch: the instant is first rounded
      to whole microseconds, then its day is taken. `None` stands for the
      out-of-range error Python raises outside years 1..9999, and is returned
      exactly when the day holding the instant lies outside them. */
  function UtcDateOfEpoch(seconds: real): (r: Option<Date>)
    ensures r.Some? ==> MinYear <= r.value.year <= MaxYear
    ensures r.Some? ==> DayHolds(r.value, RoundHalfEven(seconds * 1_000_000.0))
    ensures r.None? ==> forall d: Date :: DayHolds(d, RoundHalfEven(seconds * 1_000_000.0)) ==>
      !(MinYear <= d.year <= MaxYear)
  {
    var micros := RoundHalfEven(seconds * 1_000_000.0);
    var d := FromDayNumber(micros / MicrosPerDay);
    assert DayHolds(d, micros) by {
      assert DayNumber(d) == micros / MicrosPerDay;
    }
    if MinYear <= d.year <= MaxYear then Some(d)
    else
      assert forall e: Date :: DayHolds(e, micros) ==> e == d by {
        forall e: Date | DayHolds(e, micros) ensures e == d {
          OnlyDayOfInstant(e, micros);
        }
      }
      None
  }

  /** The epoch itself is 1970-01-01. */
  lemma EpochIsNewYear1970()
    ensures FromDayNumber(0) == CivilDate(1970, 1, 1)
  {
    var epoch: Date := CivilDate(1970, 1, 1);
    assert DayNumber(epoch) == 0;
    DayNumberRoundTrip(epoch);
  }

  lemma WithinFirstDay(seconds: real)
    requires 0.0 <= seconds <= 86_399.0
    ensures RoundHalfEven(seconds * 1_000_000.0) / MicrosPerDay == 0
  {
    var micros := RoundHalfEven(seconds * 1_000_000.0);
    assert 0 <= micros < MicrosPerDay;
  }

  /** Every instant of the epoch's first day falls on 1970-01-01. */
  lemma FirstDayOfEpoch(seconds: real)
    requires 0.0 <= seconds <= 86_399.0
    ensures UtcDateOfEpoch(seconds) == Some(CivilDate(1970, 1, 1))
  {
    EpochIsNewYear1970();
    WithinFirstDay(seconds);
  }

  /** Half a microsecond before the epoch is a tie that rounds to the even
      microsecond 0, so the instant falls on 1970-01-01, not 1969-12-31. */
  lemma HalfMicrosecondBeforeEpoch()
    ensures RoundHalfEven(-0.0000005 * 1_000_000.0) == 0
    ensures UtcDateOfEpoch(-0.0000005) == Some(CivilDate(1970, 1, 1))
  {
    var x := -0.0000005 * 1_000_000.0;
    assert x == -0.5;
    assert x.Floor == -1;
    assert RoundHalfEven(x) == 0;
    assert 0 / MicrosPerDay == 0;
    EpochIsNewYear1970();
  }
}
