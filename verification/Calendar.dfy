/**
 The calendar arithmetic of `session.rs`: the closed form `civil_from_days` against the
 proleptic Gregorian calendar of ISO 8601, defined here by its year and month lengths.
 Dafny's `/` and `%` by a positive constant are the code's `div_euclid` and `rem_euclid`,
 and agree with its `/` and `%` on the non-negative values those are applied to.
 */
module Calendar {
  import opened Wrappers

  datatype Date = Date(year: int, month: int, day: int)

  // -- The calendar ----------------------------------------------------------

  predicate IsLeap(y: int) {
    y % 4 == 0 && (y % 100 != 0 || y % 400 == 0)
  }

  function YearLength(y: int): int {
    if IsLeap(y) then 366 else 365
  }

  function MonthLength(y: int, m: int): int
    requires 1 <= m <= 12
  {
    if m == 2 then (if IsLeap(y) then 29 else 28)
    else if m == 4 || m == 6 || m == 9 || m == 11 then 30
    else 31
  }

  predicate IsDate(t: Date) {
    1 <= t.month <= 12 && 1 <= t.day <= MonthLength(t.year, t.month)
  }

  /** Days from 1 January 1970 to 1 January of `y`: the year lengths in between, summed. */
  function DaysToYear(y: int): int
    decreases if y < 1970 then 1970 - y else y - 1970
  {
    if y == 1970 then 0
    else if y > 1970 then DaysToYear(y - 1) + YearLength(y - 1)
    else DaysToYear(y + 1) - YearLength(y)
  }

  /** Days from 1 January to the first of `m`: the month lengths in between, summed. */
  function DaysToMonth(y: int, m: int): int
    requires 1 <= m <= 12
    decreases m
  {
    if m == 1 then 0 else DaysToMonth(y, m - 1) + MonthLength(y, m - 1)
  }

  /** The day's number, 1 January 1970 being day 0. */
  function DayNumber(t: Date): int
    requires IsDate(t)
  {
    DaysToYear(t.year) + DaysToMonth(t.year, t.month) + t.day - 1
  }

  function NextDay(t: Date): Date
    requires IsDate(t)
  {
    if t.day < MonthLength(t.year, t.month) then t.(day := t.day + 1)
    else if t.month < 12 then Date(t.year, t.month + 1, 1)
    else Date(t.year + 1, 1, 1)
  }

  predicate Earlier(t: Date, u: Date) {
    t.year < u.year || (t.year == u.year && (t.month < u.month || (t.month == u.month && t.day < u.day)))
  }

  // -- The code --------------------------------------------------------------

  function YearOfEra(dayOfEra: int): int {
    (dayOfEra - dayOfEra / 1460 + dayOfEra / 36_524 - dayOfEra / 146_096) / 365
  }

  function CivilFromDays(days: int): Date {
    var z := days + 719_468;
    var era := z / 146_097;
    var dayOfEra := z % 146_097;
    var yearOfEra := YearOfEra(dayOfEra);
    var year := yearOfEra + era * 400;
    var dayOfYear := dayOfEra - (365 * yearOfEra + yearOfEra / 4 - yearOfEra / 100);
    var shiftedMonth := (5 * dayOfYear + 2) / 153;
    var day := dayOfYear - (153 * shiftedMonth + 2) / 5 + 1;
    var month := if shiftedMonth < 10 then shiftedMonth + 3 else shiftedMonth - 9;
    Date(if month <= 2 then year + 1 else year, month, day)
  }

  // -- Closed forms of the sums ----------------------------------------------

  /** Days from 1 March of year 0 to 1 March of year `y`. */
  function MarchDays(y: int): int {
    365 * y + y / 4 - y / 100 + y / 400
  }

  lemma Quotient(y: int, k: int)
    requires k in {4, 100, 400}
    ensures y / k - (y - 1) / k == if y % k == 0 then 1 else 0
  {
  }

  lemma MarchDaysStep(y: int)
    ensures MarchDays(y) - MarchDays(y - 1) == YearLength(y)
  {
    Quotient(y, 4);
    Quotient(y, 100);
    Quotient(y, 400);
    CenturiesNest(y);
  }

  lemma CenturiesNest(y: int)
    ensures y % 400 == 0 ==> y % 100 == 0
    ensures y % 100 == 0 ==> y % 4 == 0
  {
    if y % 400 == 0 {
      ByHundred(y, 4 * (y / 400), 0);
    }
    if y % 100 == 0 {
      ByFour(y, 25 * (y / 100), 0);
    }
  }

  lemma {:induction false} DaysToYearClosed(y: int)
    ensures DaysToYear(y) == MarchDays(y - 1) + 306 - 719_468
    decreases if y < 1970 then 1970 - y else y - 1970
  {
    if y > 1970 {
      DaysToYearClosed(y - 1);
      MarchDaysStep(y - 1);
    } else if y < 1970 {
      DaysToYearClosed(y + 1);
      MarchDaysStep(y);
    }
  }

  /** Months counted from March, so that the leap day is the last of the year. */
  lemma DayNumberClosed(t: Date)
    requires IsDate(t)
    ensures var y := if t.month <= 2 then t.year - 1 else t.year;
            var m := if t.month <= 2 then t.month + 9 else t.month - 3;
            DayNumber(t) == MarchDays(y) + (153 * m + 2) / 5 + t.day - 1 - 719_468
  {
    DaysToYearClosed(t.year);
    MarchDaysStep(t.year);
    MonthSums(t.year, t.month);
  }

  lemma MonthSums(y: int, m: int)
    requires 1 <= m <= 12
    ensures m <= 2 ==> DaysToMonth(y, m) == (153 * (m + 9) + 2) / 5 - 306
    ensures m > 2 ==> DaysToMonth(y, m) == YearLength(y) - 365 + 59 + (153 * (m - 3) + 2) / 5
  {
    if m > 1 {
      MonthSums(y, m - 1);
    }
  }

  // -- The year of the era ---------------------------------------------------

  /**
   A day of the 400-year era, taken apart: `c` centuries, `q` four-year cycles, `a` years
   and `r` days. The last day of a cycle is the 366th of its fourth year, which a century
   has only when it is the era's last.
   */
  predicate Parts(dayOfEra: int, c: int, q: int, a: int, r: int) {
    && 0 <= c <= 3 && 0 <= q <= 24 && 0 <= a <= 3
    && 0 <= r <= (if a == 3 && (q < 24 || c == 3) then 365 else 364)
    && dayOfEra == 36_524 * c + 1461 * q + 365 * a + r
  }

  lemma TakeApart(dayOfEra: int) returns (c: int, q: int, a: int, r: int)
    requires 0 <= dayOfEra < 146_097
    ensures Parts(dayOfEra, c, q, a, r)
  {
    c := if dayOfEra >= 109_572 then 3 else dayOfEra / 36_524;
    var inCentury := dayOfEra - 36_524 * c;
    q := inCentury / 1461;
    var inCycle := inCentury - 1461 * q;
    a := if inCycle >= 1095 then 3 else inCycle / 365;
    r := inCycle - 365 * a;
  }

  /** A quotient is known by its remainder. */
  lemma ByFour(n: int, k: int, r: int)
    requires n == 4 * k + r && 0 <= r < 4
    ensures n / 4 == k && n % 4 == r
  {
  }

  lemma ByHundred(n: int, k: int, r: int)
    requires n == 100 * k + r && 0 <= r < 100
    ensures n / 100 == k && n % 100 == r
  {
  }

  lemma ByFourHundred(n: int, k: int, r: int)
    requires n == 400 * k + r && 0 <= r < 400
    ensures n / 400 == k && n % 400 == r
  {
  }

  lemma ByYears(x: int, k: int, r: int)
    requires x == 365 * k + r && 0 <= r < 365
    ensures x / 365 == k
  {
  }

  /** The corrections of the closed form, for a day taken apart. */
  lemma Corrections(dayOfEra: int, c: int, q: int, a: int, r: int) returns (e: int)
    requires Parts(dayOfEra, c, q, a, r)
    ensures dayOfEra / 1460 == 25 * c + q + e && 0 <= e <= 1
    ensures 0 <= r - e + dayOfEra / 36_524 - c - dayOfEra / 146_096 <= 364
    ensures dayOfEra / 36_524 - dayOfEra / 146_096 == c
  {
    e := if 24 * c + q + 365 * a + r >= 1460 then 1 else 0;
    assert dayOfEra / 1460 == 25 * c + q + e;
    var last := if dayOfEra == 146_096 then 1 else 0;
    assert dayOfEra / 36_524 == c + last;
    assert dayOfEra / 146_096 == last;
  }

  lemma YearOfEraIs(dayOfEra: int, n: int, c: int, q: int, a: int, r: int)
    requires Parts(dayOfEra, c, q, a, r) && n == 100 * c + 4 * q + a
    ensures YearOfEra(dayOfEra) == n
  {
    var e := Corrections(dayOfEra, c, q, a, r);
    ByYears(dayOfEra - dayOfEra / 1460 + dayOfEra / 36_524 - dayOfEra / 146_096, n, r - e);
  }

  lemma YearStart(n: int, c: int, q: int, a: int)
    requires n == 100 * c + 4 * q + a && 0 <= c <= 3 && 0 <= q <= 24 && 0 <= a <= 3
    ensures n / 4 == 25 * c + q && n / 100 == c
  {
    ByFour(n, 25 * c + q, a);
    ByHundred(n, c, 4 * q + a);
  }

  lemma EraMarch(y: int, era: int, c: int, q: int, a: int)
    requires y == 100 * c + 4 * q + a + 400 * era && 0 <= c <= 3 && 0 <= q <= 24 && 0 <= a <= 3
    ensures MarchDays(y) == 146_097 * era + 36_524 * c + 1461 * q + 365 * a
  {
    ByFour(y, 100 * era + 25 * c + q, a);
    ByHundred(y, 4 * era + c, 4 * q + a);
    ByFourHundred(y, era, 100 * c + 4 * q + a);
  }

  lemma EraLeap(y: int, era: int, c: int, q: int, a: int)
    requires y == 100 * c + 4 * q + a + 400 * era && 0 <= c <= 3 && 0 <= q <= 24 && 0 <= a <= 3
    ensures IsLeap(y + 1) <==> a == 3 && (q < 24 || c == 3)
  {
    if a < 3 {
      ByFour(y + 1, 100 * era + 25 * c + q, a + 1);
    } else {
      ByFour(y + 1, 100 * era + 25 * c + q + 1, 0);
      if q < 24 {
        ByHundred(y + 1, 4 * era + c, 4 * q + 4);
      } else {
        ByHundred(y + 1, 4 * era + c + 1, 0);
        if c == 3 {
          ByFourHundred(y + 1, era + 1, 0);
        } else {
          ByFourHundred(y + 1, era, 100 * c + 100);
        }
      }
    }
  }

  lemma EraRecombines(z: int)
    ensures z == 146_097 * (z / 146_097) + z % 146_097 && 0 <= z % 146_097 < 146_097
  {
  }

  /** A year of an era and a day `d` of it, counted from 1 March. */
  lemma EraParts(era: int, dayOfEra: int, n: int, y: int, c: int, q: int, a: int, d: int)
    requires Parts(dayOfEra, c, q, a, d) && n == 100 * c + 4 * q + a && y == n + era * 400
    ensures d == dayOfEra - (365 * n + n / 4 - n / 100)
    ensures MarchDays(y) + d == 146_097 * era + dayOfEra
    ensures 0 <= d <= (if IsLeap(y + 1) then 365 else 364)
  {
    YearStart(n, c, q, a);
    EraMarch(y, era, c, q, a);
    EraLeap(y, era, c, q, a);
  }

  lemma EraYearFrom(era: int, dayOfEra: int, n: int, y: int) returns (r: int)
    requires 0 <= dayOfEra < 146_097 && n == YearOfEra(dayOfEra) && y == n + era * 400
    ensures r == dayOfEra - (365 * n + n / 4 - n / 100)
    ensures MarchDays(y) + r == 146_097 * era + dayOfEra
    ensures 0 <= r <= (if IsLeap(y + 1) then 365 else 364)
  {
    var c, q, a, d := TakeApart(dayOfEra);
    YearOfEraIs(dayOfEra, 100 * c + 4 * q + a, c, q, a, d);
    EraParts(era, dayOfEra, n, y, c, q, a, d);
    r := d;
  }

  /** The year found, and the day counted from 1 March in it. */
  lemma EraYear(days: int) returns (y: int, r: int)
    ensures var z := days + 719_468;
            y == YearOfEra(z % 146_097) + z / 146_097 * 400
    ensures var yearOfEra := YearOfEra((days + 719_468) % 146_097);
            r == (days + 719_468) % 146_097 - (365 * yearOfEra + yearOfEra / 4 - yearOfEra / 100)
    ensures MarchDays(y) + r == days + 719_468
    ensures 0 <= r <= (if IsLeap(y + 1) then 365 else 364)
  {
    var z := days + 719_468;
    EraRecombines(z);
    var n := YearOfEra(z % 146_097);
    y := n + z / 146_097 * 400;
    r := EraYearFrom(z / 146_097, z % 146_097, n, y);
  }

  // -- The main results ------------------------------------------------------

  /** The closed form is a date, and its day number is the day asked for: for every integer. */
  lemma CivilIsThatDay(days: int)
    ensures IsDate(CivilFromDays(days)) && DayNumber(CivilFromDays(days)) == days
  {
    var y, r := EraYear(days);
    var t := CivilFromDays(days);
    var m := (5 * r + 2) / 153;
    MonthInRange(r);
    assert t == Date(if m < 10 then y else y + 1, if m < 10 then m + 3 else m - 9, r - (153 * m + 2) / 5 + 1);
    assert IsDate(t);
    DayNumberClosed(t);
  }

  /** The month counted from March, and the day in it, for a day counted from 1 March. */
  lemma MonthInRange(r: int)
    requires 0 <= r <= 365
    ensures var m := (5 * r + 2) / 153;
            var d := r - (153 * m + 2) / 5 + 1;
            && 0 <= m <= 11
            && 1 <= d <= (if m == 11 then (if r == 365 then 29 else 28)
                          else if m == 1 || m == 3 || m == 6 || m == 8 then 30 else 31)
  {
  }

  lemma YearSpan(t: Date)
    requires IsDate(t)
    ensures DaysToYear(t.year) <= DayNumber(t) < DaysToYear(t.year + 1)
  {
    DayNumberClosed(t);
    DaysToYearClosed(t.year);
    DaysToYearClosed(t.year + 1);
    MarchDaysStep(t.year);
    MonthSums(t.year, t.month);
  }

  lemma {:induction false} YearsGrow(y: int, z: int)
    requires y <= z
    ensures DaysToYear(y) <= DaysToYear(z)
    decreases z - y
  {
    if y < z {
      YearsGrow(y, z - 1);
      DaysToYearClosed(z);
      DaysToYearClosed(z - 1);
      MarchDaysStep(z - 1);
    }
  }

  lemma {:induction false} MonthsGrow(y: int, m: int, n: int)
    requires 1 <= m < n <= 12
    ensures DaysToMonth(y, m) + MonthLength(y, m) <= DaysToMonth(y, n)
    decreases n - m
  {
    if m < n - 1 {
      MonthsGrow(y, m, n - 1);
    }
  }

  /** Later dates have larger day numbers. */
  lemma DayNumberIncreases(t: Date, u: Date)
    requires IsDate(t) && IsDate(u) && Earlier(t, u)
    ensures DayNumber(t) < DayNumber(u)
  {
    if t.year < u.year {
      YearSpan(t);
      YearsGrow(t.year + 1, u.year);
      YearSpan(u);
    } else if t.month < u.month {
      MonthsGrow(t.year, t.month, u.month);
    }
  }

  /** The closed form inverts the day number: every date of the calendar is reached, once. */
  lemma CivilInvertsDayNumber(t: Date)
    requires IsDate(t)
    ensures CivilFromDays(DayNumber(t)) == t
  {
    var u := CivilFromDays(DayNumber(t));
    CivilIsThatDay(DayNumber(t));
    if Earlier(t, u) {
      DayNumberIncreases(t, u);
    } else if Earlier(u, t) {
      DayNumberIncreases(u, t);
    }
  }

  lemma YearStep(y: int)
    ensures DaysToYear(y + 1) == DaysToYear(y) + YearLength(y)
  {
    DaysToYearClosed(y);
    DaysToYearClosed(y + 1);
    MarchDaysStep(y);
  }

  lemma NextDayIsNext(t: Date)
    requires IsDate(t)
    ensures IsDate(NextDay(t)) && DayNumber(NextDay(t)) == DayNumber(t) + 1
  {
    if t.day == MonthLength(t.year, t.month) && t.month == 12 {
      YearStep(t.year);
      MonthSums(t.year, 12);
    }
  }

  /** The next integer is the next day of the calendar. */
  lemma CivilStepsByOneDay(days: int)
    ensures IsDate(CivilFromDays(days)) && CivilFromDays(days + 1) == NextDay(CivilFromDays(days))
  {
    var t := CivilFromDays(days);
    CivilIsThatDay(days);
    NextDayIsNext(t);
    CivilInvertsDayNumber(NextDay(t));
  }

  lemma CivilIncreases(days: int, later: int)
    requires days < later
    ensures Earlier(CivilFromDays(days), CivilFromDays(later))
  {
    var t, u := CivilFromDays(days), CivilFromDays(later);
    CivilIsThatDay(days);
    CivilIsThatDay(later);
    if Earlier(u, t) {
      DayNumberIncreases(u, t);
    }
  }

  // -- The stamp -------------------------------------------------------------

  datatype Stamp = Stamp(date: Date, hour: int, minute: int, second: int)

  /** The fields a stamp is printed from; `None` is the record that is no unsigned integer. */
  function Timestamp(ms: Option<nat>): Option<Stamp> {
    if ms.None? then None
    else
      var seconds := ms.value / 1000;
      var time := seconds % 86_400;
      Some(Stamp(CivilFromDays(seconds / 86_400), time / 3600, time % 3600 / 60, time % 60))
  }

  /** A stamp's fields are in range and recombine to the seconds it was made from. */
  lemma TimestampRecombines(ms: nat)
    ensures var t := Timestamp(Some(ms)).value;
            && IsDate(t.date) && t.date.year >= 1970
            && 0 <= t.hour < 24 && 0 <= t.minute < 60 && 0 <= t.second < 60
            && ((DayNumber(t.date) * 24 + t.hour) * 60 + t.minute) * 60 + t.second == ms / 1000
  {
    var seconds := ms / 1000;
    var t := Timestamp(Some(ms)).value;
    CivilIsThatDay(seconds / 86_400);
    TimeOfDay(seconds % 86_400);
    if t.date.year < 1970 {
      YearSpan(t.date);
      YearsGrow(t.date.year + 1, 1970);
    }
  }

  lemma TimeOfDay(time: int)
    requires 0 <= time < 86_400
    ensures 0 <= time / 3600 < 24 && 0 <= time % 3600 / 60 < 60
    ensures (time / 3600 * 60 + time % 3600 / 60) * 60 + time % 60 == time
  {
    var h, rest := time / 3600, time % 3600;
    var m, s := rest / 60, rest % 60;
    assert time == 60 * (60 * h + m) + s;
  }
}
