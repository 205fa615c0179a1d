/** Dates are ordinals of the proleptic Gregorian calendar, day one being January 1 of year one. */
module Calendar {
  function YearLength(year: nat): nat {
    if year % 4 == 0 && (year % 100 != 0 || year % 400 == 0) then 366 else 365
  }

  // The ordinal of January 1 of a year.
  function JanuaryFirst(year: nat): int {
    if year <= 1 then 1 else JanuaryFirst(year - 1) + YearLength(year - 1)
  }

  lemma {:induction false} YearsAreOrdered(a: nat, b: nat)
    requires 1 <= a <= b
    ensures JanuaryFirst(a) <= JanuaryFirst(b)
    decreases b
  {
    if a < b {
      YearsAreOrdered(a, b - 1);
    }
  }

  function YearFrom(day: int, year: nat): (y: nat)
    requires 1 <= year && JanuaryFirst(year) <= day
    ensures year <= y && JanuaryFirst(y) <= day < JanuaryFirst(y + 1)
    decreases day - JanuaryFirst(year)
  {
    if JanuaryFirst(year + 1) <= day then YearFrom(day, year + 1) else year
  }

  // The year a day falls in; there are no days before day one.
  function YearOf(day: int): (y: nat)
    ensures 1 <= y && (day >= 1 ==> JanuaryFirst(y) <= day < JanuaryFirst(y + 1))
  {
    if day < 1 then 1 else YearFrom(day, 1)
  }

  // January 1 of the calendar year four before the one a day falls in.
  function FourYearsBefore(day: int): int {
    if YearOf(day) <= 4 then 1 else JanuaryFirst(YearOf(day) - 4)
  }

  lemma YearIsLate(day: int, year: nat)
    requires year >= 1 && JanuaryFirst(year) <= day
    ensures YearOf(day) >= year
  {
    YearsAreOrdered(1, year);
    if YearOf(day) + 1 <= year {
      YearsAreOrdered(YearOf(day) + 1, year);
    }
  }

  // It lies between four and five years back.
  lemma FourYearsBack(day: int)
    requires JanuaryFirst(5) <= day
    ensures 4 * 365 <= day - FourYearsBefore(day) <= 5 * 366
  {
    hide YearLength, JanuaryFirst, YearOf;
    var y := YearOf(day);
    YearsAreOrdered(1, 5);
    FirstDay();
    YearIsLate(day, 5);
    NextYear(y);
    NextYear(y - 1);
    NextYear(y - 2);
    NextYear(y - 3);
    NextYear(y - 4);
  }

  lemma FirstDay()
    ensures JanuaryFirst(1) == 1
  {}

  lemma NextYear(year: nat)
    requires year >= 1
    ensures 365 <= JanuaryFirst(year + 1) - JanuaryFirst(year) <= 366
  {}

  // ----- the closed form -----

  // January 1 of a year of the Gregorian calendar: a leap day every fourth year, but not every
  // hundredth, but every four hundredth.
  function FirstOf(year: nat): int
    requires year >= 1
  {
    365 * (year - 1) + (year - 1) / 4 - (year - 1) / 100 + (year - 1) / 400 + 1
  }

  lemma {:induction false} JanuaryFirstIs(year: nat)
    requires year >= 1
    ensures JanuaryFirst(year) == FirstOf(year)
  {
    if year > 1 {
      JanuaryFirstIs(year - 1);
      LeapDays(year - 1);
    }
  }

  lemma LeapDays(year: nat)
    requires year >= 1
    ensures FirstOf(year + 1) - FirstOf(year) == YearLength(year)
  {
    hide FirstOf;
    OneYearOn(year);
    EveryFourth(year);
    EveryHundredth(year);
    EveryFourHundredth(year);
    HundredthsAreFourths(year);
    FourHundredthsAreHundredths(year);
  }

  lemma OneYearOn(year: nat)
    requires year >= 1
    ensures FirstOf(year + 1) - FirstOf(year)
      == 365 + (year / 4 - (year - 1) / 4) - (year / 100 - (year - 1) / 100) + (year / 400 - (year - 1) / 400)
  {}

  lemma HundredthsAreFourths(year: nat)
    ensures year % 100 == 0 ==> year % 4 == 0
  {
    if year % 100 == 0 {
      var m := 25 * (year / 100);
      FourTimes(m);
      assert year == 4 * m;
    }
  }

  lemma FourHundredthsAreHundredths(year: nat)
    ensures year % 400 == 0 ==> year % 100 == 0
  {
    if year % 400 == 0 {
      var m := 4 * (year / 400);
      HundredTimes(m);
      assert year == 100 * m;
    }
  }

  lemma FourTimes(m: int)
    ensures (4 * m) % 4 == 0
  {}

  lemma HundredTimes(m: int)
    ensures (100 * m) % 100 == 0
  {}

  lemma EveryFourth(year: int)
    ensures year / 4 - (year - 1) / 4 == if year % 4 == 0 then 1 else 0
  {}

  lemma EveryHundredth(year: int)
    ensures year / 100 - (year - 1) / 100 == if year % 100 == 0 then 1 else 0
  {}

  lemma EveryFourHundredth(year: int)
    ensures year / 400 - (year - 1) / 400 == if year % 400 == 0 then 1 else 0
  {}

  // A day of some year has as its date four years back the first day of the year four before that,
  // or of year one.
  lemma FourYearsBeforeIs(day: int, year: nat)
    requires year >= 1 && FirstOf(year) <= day < FirstOf(year + 1)
    ensures FourYearsBefore(day) == if year > 4 then FirstOf(year - 4) else 1
  {
    hide FirstOf, JanuaryFirst, YearOf;
    FirstDay();
    JanuaryFirstIs(year);
    JanuaryFirstIs(year + 1);
    YearsAreOrdered(1, year);
    YearIsLate(day, year);
    if YearOf(day) > year {
      YearsAreOrdered(year + 1, YearOf(day));
    }
    if year > 4 {
      JanuaryFirstIs(year - 4);
    }
  }
}
