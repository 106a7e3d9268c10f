/**
 When a billing period ends (services/billing/schedule.go): the same date next month or next
 year, by Go's calendar arithmetic, which lets a day that does not exist run over into the
 following month.
 */
module BillingCalendar {
  datatype Cycle = Monthly | Yearly

  datatype Date = Date(year: nat, month: nat, day: nat) {
    predicate Valid() {
      1 <= month <= 12 && 1 <= day <= DaysIn(year, month)
    }
  }

  /** An instant: a day, counted from the first of January of year 0, and a time of that day. */
  datatype Instant = Instant(day: nat, time: nat) {
    predicate Before(other: Instant) {
      day < other.day || (day == other.day && time < other.time)
    }
  }

  predicate IsLeap(year: nat) {
    year % 4 == 0 && (year % 100 != 0 || year % 400 == 0)
  }

  function DaysIn(year: nat, month: nat): nat {
    if month == 2 then (if IsLeap(year) then 29 else 28)
    else if month == 4 || month == 6 || month == 9 || month == 11 then 30
    else 31
  }

  /** Instants are in one order, by day and then by time. */
  lemma InstantsInOrder(a: Instant, b: Instant, c: Instant)
    ensures a == b || a.Before(b) || b.Before(a)
    ensures !(a.Before(b) && b.Before(a)) && !a.Before(a)
    ensures a.Before(b) && b.Before(c) ==> a.Before(c)
    ensures a.day < b.day ==> a.Before(b)
    ensures a.day == b.day && a.time < b.time ==> a.Before(b)
  {
  }

  function YearStart(year: nat): nat {
    if year == 0 then 0 else YearStart(year - 1) + if IsLeap(year - 1) then 366 else 365
  }

  /** The day number of the first of a month. */
  function MonthStart(year: nat, month: nat): nat
    requires 1 <= month <= 12
  {
    if month == 1 then YearStart(year) else MonthStart(year, month - 1) + DaysIn(year, month - 1)
  }

  function DayNumber(d: Date): nat
    requires d.Valid()
  {
    MonthStart(d.year, d.month) + d.day - 1
  }

  lemma YearEnds(year: nat)
    ensures MonthStart(year, 12) + 31 == YearStart(year + 1)
  {
    var feb := DaysIn(year, 2);
    assert MonthStart(year, 2) == YearStart(year) + 31;
    assert MonthStart(year, 4) == YearStart(year) + 62 + feb;
    assert MonthStart(year, 6) == YearStart(year) + 123 + feb;
    assert MonthStart(year, 8) == YearStart(year) + 184 + feb;
    assert MonthStart(year, 10) == YearStart(year) + 245 + feb;
    assert MonthStart(year, 12) == YearStart(year) + 306 + feb;
  }

  /** Leap years among the first so many. */
  lemma {:induction false} YearStartIs(year: nat)
    ensures YearStart(year) == 365 * year + (year + 3) / 4 - (year + 99) / 100 + (year + 399) / 400
  {
    if year > 0 {
      YearStartIs(year - 1);
      LeapYearAdds(year - 1);
    }
  }

  lemma LeapYearAdds(year: nat)
    ensures (year + 4) / 4 - (year + 100) / 100 + (year + 400) / 400
            == (year + 3) / 4 - (year + 99) / 100 + (year + 399) / 400 + if IsLeap(year) then 1 else 0
  {
    Rounds(year, 4);
    Rounds(year, 100);
    Rounds(year, 400);
    Divides(year);
  }

  lemma Rounds(year: nat, n: nat)
    requires n > 1
    ensures (year + n) / n == (year + n - 1) / n + if year % n == 0 then 1 else 0
  {
    var q, r := year / n, year % n;
    assert year == q * n + r;
    Quotient(year + n, n, q + 1, r);
    if r == 0 {
      Quotient(year + n - 1, n, q, n - 1);
    } else {
      Quotient(year + n - 1, n, q + 1, r - 1);
    }
  }

  lemma Quotient(x: int, n: int, q: int, r: int)
    requires n > 0 && 0 <= r < n && x == q * n + r
    ensures x / n == q
  {
    var d := x / n - q;
    assert d * n == r - x % n;
  }

  lemma Remainder(x: int, n: int, q: int)
    requires n > 0 && x == q * n
    ensures x % n == 0
  {
    Quotient(x, n, q, 0);
  }

  lemma Divides(year: nat)
    ensures year % 400 == 0 ==> year % 100 == 0
    ensures year % 100 == 0 ==> year % 4 == 0
  {
    if year % 400 == 0 {
      Remainder(year, 100, year / 400 * 4);
    }
    if year % 100 == 0 {
      Remainder(year, 4, year / 100 * 25);
    }
  }

  /** 400 years have 146,097 days. */
  lemma FourCenturies(year: nat)
    ensures YearStart(year + 400) == YearStart(year) + 146_097
  {
    var later := year + 400;
    YearStartIs(year);
    YearStartIs(later);
    LeapDaysRepeat(year);
  }

  lemma LeapDaysRepeat(year: nat)
    ensures (year + 403) / 4 == (year + 3) / 4 + 100
    ensures (year + 499) / 100 == (year + 99) / 100 + 4
    ensures (year + 799) / 400 == (year + 399) / 400 + 1
  {
  }

  /** The months of the Gregorian calendar, and its leap years. */
  lemma MonthLengths(year: nat)
    ensures var leap := (year % 4 == 0 && year % 100 != 0) || year % 400 == 0;
            && YearStart(year + 1) - YearStart(year) == (if leap then 366 else 365)
            && MonthStart(year, 2) - MonthStart(year, 1) == 31
            && MonthStart(year, 3) - MonthStart(year, 2) == (if leap then 29 else 28)
    ensures forall m | m in [4, 6, 9, 11] :: MonthStart(year, m + 1) - MonthStart(year, m) == 30
    ensures forall m | m in [3, 5, 7, 8, 10] :: MonthStart(year, m + 1) - MonthStart(year, m) == 31
    ensures YearStart(year + 1) - MonthStart(year, 12) == 31
  {
    Divides(year);
    YearEnds(year);
  }

  lemma {:induction false} MonthsInOrder(year: nat, month: nat, later: nat)
    requires 1 <= month < later <= 12
    ensures MonthStart(year, month) + DaysIn(year, month) <= MonthStart(year, later)
  {
    if month + 1 < later {
      MonthsInOrder(year, month, later - 1);
    }
  }

  lemma MonthInYear(year: nat, month: nat)
    requires 1 <= month <= 12
    ensures YearStart(year) <= MonthStart(year, month)
    ensures MonthStart(year, month) + DaysIn(year, month) <= YearStart(year + 1)
  {
    YearEnds(year);
    if month > 1 {
      MonthsInOrder(year, 1, month);
    }
    if month < 12 {
      MonthsInOrder(year, month, 12);
    }
  }

  lemma {:induction false} YearsInOrder(year: nat, later: nat)
    requires year < later
    ensures YearStart(year + 1) <= YearStart(later)
  {
    if year + 1 < later {
      YearsInOrder(year, later - 1);
    }
  }

  predicate Earlier(a: Date, b: Date) {
    a.year < b.year || (a.year == b.year && (a.month < b.month || (a.month == b.month && a.day < b.day)))
  }

  /** Day numbers go up with dates. */
  lemma DaysInOrder(a: Date, b: Date)
    requires a.Valid() && b.Valid() && Earlier(a, b)
    ensures DayNumber(a) < DayNumber(b)
  {
    if a.year < b.year {
      MonthInYear(a.year, a.month);
      YearsInOrder(a.year, b.year);
      MonthInYear(b.year, b.month);
    } else if a.month < b.month {
      MonthsInOrder(a.year, a.month, b.month);
    }
  }

  /** The date of a day number: the day is counted off in whole years, then whole months. */
  method DateOf(n: nat) returns (d: Date)
    ensures d.Valid() && DayNumber(d) == n
  {
    var year := 0;
    while n >= YearStart(year + 1)
      invariant YearStart(year) <= n
      decreases n - YearStart(year)
    {
      year := year + 1;
    }
    var month := 1;
    while month < 12 && n >= MonthStart(year, month + 1)
      invariant 1 <= month <= 12 && MonthStart(year, month) <= n
      decreases 12 - month
    {
      month := month + 1;
    }
    YearEnds(year);
    d := Date(year, month, n - MonthStart(year, month) + 1);
  }

  lemma {:induction false} CivilExists(n: nat)
    ensures exists d: Date :: d.Valid() && DayNumber(d) == n
  {
    if n == 0 {
      var d := Date(0, 1, 1);
      assert d.Valid() && DayNumber(d) == 0;
    } else {
      CivilExists(n - 1);
      var d: Date :| d.Valid() && DayNumber(d) == n - 1;
      NextDayExists(d);
    }
  }

  lemma NextDayExists(d: Date)
    requires d.Valid()
    ensures exists e: Date :: e.Valid() && DayNumber(e) == DayNumber(d) + 1
  {
    if d.day < DaysIn(d.year, d.month) {
      var e := d.(day := d.day + 1);
      assert e.Valid() && DayNumber(e) == DayNumber(d) + 1;
    } else if d.month < 12 {
      var e := Date(d.year, d.month + 1, 1);
      assert e.Valid() && DayNumber(e) == DayNumber(d) + 1;
    } else {
      var e := Date(d.year + 1, 1, 1);
      YearEnds(d.year);
      assert e.Valid() && DayNumber(e) == DayNumber(d) + 1;
    }
  }

  ghost function Civil(n: nat): (d: Date)
    ensures d.Valid() && DayNumber(d) == n
  {
    CivilExists(n);
    var d: Date :| d.Valid() && DayNumber(d) == n;
    d
  }

  /** A day number has one date. */
  lemma CivilUnique(d: Date)
    requires d.Valid()
    ensures Civil(DayNumber(d)) == d
  {
    var c := Civil(DayNumber(d));
    if Earlier(c, d) {
      DaysInOrder(c, d);
    } else if Earlier(d, c) {
      DaysInOrder(d, c);
    }
  }

  // ---- AddDate ----

  /** The month after, and the year it is in. */
  function NextMonth(year: nat, month: nat): (nat, nat) {
    if month < 12 then (year, month + 1) else (year + 1, 1)
  }

  /** A date whose day may be past the end of its month. */
  ghost function Normalised(year: nat, month: nat, day: nat): Date
    requires 1 <= month <= 12 && day >= 1
  {
    Civil(MonthStart(year, month) + day - 1)
  }

  ghost function AddCycle(d: Date, cycle: Cycle): Date
    requires d.Valid()
  {
    if cycle.Yearly? then Normalised(d.year + 1, d.month, d.day)
    else
      var (year, month) := NextMonth(d.year, d.month);
      Normalised(year, month, d.day)
  }

  ghost function NextPeriodEnd(start: Instant, cycle: Cycle): Instant {
    Instant(DayNumber(AddCycle(Civil(start.day), cycle)), start.time)
  }

  method PeriodEnd(start: Instant, cycle: Cycle) returns (end: Instant)
    ensures end == NextPeriodEnd(start, cycle)
  {
    var d := DateOf(start.day);
    CivilUnique(d);
    var (year, month) := if cycle.Yearly? then (d.year + 1, d.month) else NextMonth(d.year, d.month);
    end := Instant(MonthStart(year, month) + d.day - 1, start.time);
  }

  lemma NextMonthFollows(d: Date)
    requires d.Valid()
    ensures var (year, month) := NextMonth(d.year, d.month);
            MonthStart(year, month) == MonthStart(d.year, d.month) + DaysIn(d.year, d.month)
  {
    if d.month == 12 {
      YearEnds(d.year);
    }
  }

  /** A monthly period is as long as the month it starts in, whatever day it starts on. */
  lemma MonthlyLength(start: Instant)
    ensures var d := Civil(start.day);
            NextPeriodEnd(start, Monthly) == Instant(start.day + DaysIn(d.year, d.month), start.time)
  {
    NextMonthFollows(Civil(start.day));
  }

  /** Days left in the year from the first of a month: what a yearly period can be measured by. */
  lemma {:induction false} YearlyMonths(year: nat, month: nat)
    requires 1 <= month <= 12
    ensures MonthStart(year + 1, month) - MonthStart(year, month) ==
            365 + if (month <= 2 && IsLeap(year)) || (month > 2 && IsLeap(year + 1)) then 1 else 0
    decreases month
  {
    if month > 1 {
      YearlyMonths(year, month - 1);
      if month == 3 {
        LeapsApart(year);
      }
    }
  }

  lemma LeapsApart(year: nat)
    ensures !(IsLeap(year) && IsLeap(year + 1))
  {
  }

  /** A yearly period has 366 days exactly when it contains a 29 February. */
  lemma YearlyLength(start: Instant)
    ensures var d := Civil(start.day);
            NextPeriodEnd(start, Yearly) == Instant(start.day + 365 +
              (if (d.month <= 2 && IsLeap(d.year)) || (d.month > 2 && IsLeap(d.year + 1)) then 1 else 0), start.time)
  {
    var d := Civil(start.day);
    YearlyMonths(d.year, d.month);
  }

  /** A period always ends after it starts. */
  lemma PeriodsAdvance(start: Instant, cycle: Cycle)
    ensures start.Before(NextPeriodEnd(start, cycle))
  {
    MonthlyLength(start);
    YearlyLength(start);
  }

  /** The next monthly date is the same day of the next month exactly when that month has such a
      day; otherwise it runs over into the month after by the days that are missing. */
  lemma SameDayNextMonthExactly(d: Date)
    requires d.Valid()
    ensures var (year, month) := NextMonth(d.year, d.month);
            && (AddCycle(d, Monthly) == Date(year, month, d.day) <==> d.day <= DaysIn(year, month))
            && (d.day > DaysIn(year, month) ==>
              AddCycle(d, Monthly) == Date(year, month + 1, d.day - DaysIn(year, month)))
  {
    var (year, month) := NextMonth(d.year, d.month);
    if d.day <= DaysIn(year, month) {
      CivilUnique(Date(year, month, d.day));
    } else {
      CivilUnique(Date(year, month + 1, d.day - DaysIn(year, month)));
    }
  }

  /** So a period that starts on 31 January of an ordinary year ends on 3 March. */
  lemma EndOfJanuaryRunsOver(year: nat)
    requires !IsLeap(year)
    ensures Date(year, 1, 31).Valid() && AddCycle(Date(year, 1, 31), Monthly) == Date(year, 3, 3)
  {
    SameDayNextMonthExactly(Date(year, 1, 31));
  }

  /** The next yearly date is the same date exactly unless it is a 29 February, which becomes 1 March. */
  lemma SameDateNextYearExactly(d: Date)
    requires d.Valid()
    ensures AddCycle(d, Yearly) == d.(year := d.year + 1) <==> !(d.month == 2 && d.day == 29)
    ensures d.month == 2 && d.day == 29 ==> AddCycle(d, Yearly) == Date(d.year + 1, 3, 1)
  {
    if d.month == 2 && d.day == 29 {
      LeapsApart(d.year);
      CivilUnique(Date(d.year + 1, 3, 1));
    } else {
      CivilUnique(d.(year := d.year + 1));
    }
  }

  /** The calendar month a number of months after the given one. */
  function MonthAfter(month: (nat, nat), n: nat): (nat, nat) {
    if n == 0 then month
    else
      var before := MonthAfter(month, n - 1);
      NextMonth(before.0, before.1)
  }

  /** An instant falls on a day of a month. */
  ghost predicate FallsOn(t: Instant, month: (nat, nat), day: nat) {
    Civil(t.day) == Date(month.0, month.1, day)
  }

  lemma Anniversary(t: Instant, month: (nat, nat), day: nat)
    requires day <= 28 && FallsOn(t, month, day)
    ensures FallsOn(NextPeriodEnd(t, Monthly), NextMonth(month.0, month.1), day)
  {
    var next := AddCycle(Civil(t.day), Monthly);
    SameDayNextMonthExactly(Civil(t.day));
    CivilUnique(next);
  }

  /** The end of the n-th of a run of periods. */
  ghost function PeriodsLater(t: Instant, cycle: Cycle, n: nat): Instant {
    if n == 0 then t else NextPeriodEnd(PeriodsLater(t, cycle, n - 1), cycle)
  }

  /** A billing day up to the 28th never drifts: n months on it falls on the same day of the
      n-th month after. */
  lemma {:induction false} BillingDayStays(t: Instant, month: (nat, nat), day: nat, n: nat)
    requires day <= 28 && FallsOn(t, month, day)
    ensures FallsOn(PeriodsLater(t, Monthly, n), MonthAfter(month, n), day)
  {
    if n > 0 {
      BillingDayStays(t, month, day, n - 1);
      Anniversary(PeriodsLater(t, Monthly, n - 1), MonthAfter(month, n - 1), day);
    }
  }

  /** Months counted on from the year 0. */
  lemma {:induction false} MonthAfterCounts(month: (nat, nat), n: nat)
    requires 1 <= month.1 <= 12
    ensures var later := MonthAfter(month, n);
            1 <= later.1 <= 12 && later.0 * 12 + later.1 == month.0 * 12 + month.1 + n
  {
    if n > 0 {
      MonthAfterCounts(month, n - 1);
    }
  }

  /** Some February to come has 28 days. */
  lemma ShortFebruary(month: (nat, nat)) returns (n: nat)
    requires 1 <= month.1 <= 12
    ensures MonthAfter(month, n).1 == 2 && !IsLeap(MonthAfter(month, n).0)
  {
    LeapsApart(month.0 + 1);
    var year := if IsLeap(month.0 + 1) then month.0 + 2 else month.0 + 1;
    n := year * 12 + 2 - month.0 * 12 - month.1;
    MonthAfterCounts(month, n);
    assert MonthAfter(month, n).0 == year;
  }

  /** A monthly plan is billed on the same day of every month to come if and only if that day is at
      most the 28th. */
  lemma BillingDayStaysExactly(t: Instant, month: (nat, nat), day: nat)
    requires FallsOn(t, month, day)
    ensures (forall n: nat :: FallsOn(PeriodsLater(t, Monthly, n), MonthAfter(month, n), day)) <==> day <= 28
  {
    if day <= 28 {
      forall n: nat
        ensures FallsOn(PeriodsLater(t, Monthly, n), MonthAfter(month, n), day)
      {
        BillingDayStays(t, month, day, n);
      }
    } else {
      var n := ShortFebruary(month);
      assert !Date(MonthAfter(month, n).0, 2, day).Valid();
      assert !FallsOn(PeriodsLater(t, Monthly, n), MonthAfter(month, n), day);
    }
  }

  lemma {:induction false} BillingDateStays(t: Instant, d: Date, n: nat)
    requires Civil(t.day) == d && !(d.month == 2 && d.day == 29)
    ensures Civil(PeriodsLater(t, Yearly, n).day) == d.(year := d.year + n)
  {
    if n > 0 {
      BillingDateStays(t, d, n - 1);
      SameDateNextYearExactly(d.(year := d.year + (n - 1)));
      CivilUnique(d.(year := d.year + n));
    }
  }

  /** A yearly plan is billed on the same date of every year to come if and only if that is not a
      29 February. */
  lemma BillingDateStaysExactly(t: Instant, d: Date)
    requires Civil(t.day) == d
    ensures (forall n: nat :: Civil(PeriodsLater(t, Yearly, n).day) == d.(year := d.year + n)) <==> !(d.month == 2 && d.day == 29)
  {
    if d.month == 2 && d.day == 29 {
      LeapsApart(d.year);
      assert !d.(year := d.year + 1).Valid();
      assert Civil(PeriodsLater(t, Yearly, 1).day) != d.(year := d.year + 1);
    } else {
      forall n: nat
        ensures Civil(PeriodsLater(t, Yearly, n).day) == d.(year := d.year + n)
      {
        BillingDateStays(t, d, n);
      }
    }
  }
}
