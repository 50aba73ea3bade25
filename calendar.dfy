/** Calendar days as JavaScript's `Date` handles them in the pass and
    subscription cards: a year, a month counted from 0 and a day of the month,
    in the proleptic Gregorian calendar. `new Date(y, m, n)`, `setDate(n)` and
    `setFullYear(y)` carry an out-of-range day into the following months (and
    day 0 into the last day of the previous month). The time of day, which
    those calls carry along unchanged, is not part of the model. */
module Calendar {
  import opened Common

  datatype CalDate = CalDate(year: int, month: int, day: int)

  predicate IsLeap(y: int) { y % 4 == 0 && (y % 100 != 0 || y % 400 == 0) }

  function YearLength(y: int): int { if IsLeap(y) then 366 else 365 }

  /** The number of days of month `m` (0 = January) of year `y`. */
  function DaysIn(y: int, m: int): (n: int)
    ensures 28 <= n <= 31
  {
    if m == 1 then (if IsLeap(y) then 29 else 28)
    else if m == 3 || m == 5 || m == 8 || m == 10 then 30
    else 31
  }

  predicate ValidDate(d: CalDate) {
    0 <= d.year && 0 <= d.month < 12 && 1 <= d.day <= DaysIn(d.year, d.month)
  }

  /** The month after month `m` of year `y`. */
  function NextMonth(y: int, m: int): (int, int) {
    if m == 11 then (y + 1, 0) else (y, m + 1)
  }

  /** `new Date(y, m, n)` and `setDate(n)` on a date of month `m` of `y`: day
      `n` of that month, carried into the following months when `n` is past
      its end; day 0 is the last day of the previous month. */
  function MakeDate(y: int, m: int, n: nat): (d: CalDate)
    requires 0 <= y && 0 <= m < 12
    requires n == 0 ==> m > 0 || y > 0
    ensures ValidDate(d)
    decreases n
  {
    if n == 0 then
      (if m == 0 then CalDate(y - 1, 11, 31) else CalDate(y, m - 1, DaysIn(y, m - 1)))
    else if n <= DaysIn(y, m) then CalDate(y, m, n)
    else
      var (ny, nm) := NextMonth(y, m);
      MakeDate(ny, nm, n - DaysIn(y, m))
  }

  /** A day that exists is built as itself. */
  lemma MakeValid(d: CalDate)
    requires ValidDate(d)
    ensures d.day > 0 && MakeDate(d.year, d.month, d.day) == d
  {
  }

  // ---------------------------------------------------------------------------
  // Day numbers: an independent count of days, to state what the carrying
  // calls compute.

  function DaysBeforeYear(y: nat): nat {
    if y == 0 then 0 else DaysBeforeYear(y - 1) + YearLength(y - 1)
  }

  /** Days of year `y` before the first of month `m`. */
  function DaysBeforeMonth(y: int, m: int): int
    requires 0 <= m < 12
  {
    [0, 31, 59, 90, 120, 151, 181, 212, 243, 273, 304, 334][m] + (if m >= 2 && IsLeap(y) then 1 else 0)
  }

  /** The number of the day before the first of month `m` of `y`. */
  function MonthStart(y: nat, m: int): int
    requires 0 <= m < 12
  {
    DaysBeforeYear(y) + DaysBeforeMonth(y, m)
  }

  /** The day's number, counted from the first day of year 0. */
  function Ordinal(d: CalDate): int
    requires ValidDate(d)
  {
    MonthStart(d.year, d.month) + d.day
  }

  /** 29 February. */
  predicate IsLeapDay(d: CalDate) { d.month == 1 && d.day == 29 }

  /** The next month starts right after the last day of this one. */
  lemma MonthStartNext(y: nat, m: int)
    requires 0 <= m < 12
    ensures var (ny, nm) := NextMonth(y, m);
            ny >= 0 && 0 <= nm < 12 && MonthStart(ny, nm) == MonthStart(y, m) + DaysIn(y, m)
  {
    if m == 11 {
      assert DaysBeforeYear(y + 1) == DaysBeforeYear(y) + YearLength(y);
    }
  }

  /** Day `n` of month `m` is the `n`-th day after the month starts, however
      far past the month's end `n` reaches. */
  lemma {:induction false} MakeDateOrdinal(y: nat, m: int, n: nat)
    requires 0 <= m < 12
    requires n == 0 ==> m > 0 || y > 0
    ensures Ordinal(MakeDate(y, m, n)) == MonthStart(y, m) + n
    decreases n
  {
    if n == 0 {
      if m == 0 {
        MonthStartNext(y - 1, 11);
      } else {
        MonthStartNext(y, m - 1);
      }
    } else if n > DaysIn(y, m) {
      var (ny, nm) := NextMonth(y, m);
      MonthStartNext(y, m);
      MakeDateOrdinal(ny, nm, n - DaysIn(y, m));
    }
  }

  /** The `YYYY-MM-DD` text of a day (`getKSTDateString`), as a `Date`
      number. */
  function KeyOf(d: CalDate): Date {
    d.year * 10000 + (d.month + 1) * 100 + d.day
  }

  /** Years only add days. */
  lemma {:induction false} DaysBeforeYearGrows(a: nat, b: nat)
    requires a < b
    ensures DaysBeforeYear(a) + YearLength(a) <= DaysBeforeYear(b)
    decreases b
  {
    assert DaysBeforeYear(b) == DaysBeforeYear(b - 1) + YearLength(b - 1);
    if a + 1 < b {
      DaysBeforeYearGrows(a, b - 1);
    }
  }

  /** A day falls inside its year. */
  lemma OrdinalInYear(d: CalDate)
    requires ValidDate(d)
    ensures DaysBeforeYear(d.year) < Ordinal(d) <= DaysBeforeYear(d.year) + YearLength(d.year)
  {
  }

  /** An earlier month ends before a later one starts. */
  lemma MonthBefore(y: nat, m: int, m': int)
    requires 0 <= m < m' < 12
    ensures DaysBeforeMonth(y, m) + DaysIn(y, m) <= DaysBeforeMonth(y, m')
  {
  }

  /** Comparing the date texts orders days as time does: a day's text is at
      most another's exactly when it is not later. */
  lemma KeyOrder(a: CalDate, b: CalDate)
    requires ValidDate(a) && ValidDate(b)
    ensures KeyOf(a) <= KeyOf(b) <==> Ordinal(a) <= Ordinal(b)
    ensures KeyOf(a) == KeyOf(b) <==> a == b
  {
    if a.year < b.year {
      OrdinalInYear(a);
      OrdinalInYear(b);
      DaysBeforeYearGrows(a.year, b.year);
    } else if b.year < a.year {
      OrdinalInYear(a);
      OrdinalInYear(b);
      DaysBeforeYearGrows(b.year, a.year);
    } else if a.month < b.month {
      MonthBefore(a.year, a.month, b.month);
    } else if b.month < a.month {
      MonthBefore(a.year, b.month, a.month);
    }
  }

  // ---------------------------------------------------------------------------
  // The mutable JavaScript date.

  /** A JavaScript `Date` object, reduced to its calendar day. */
  class JsDate {
    var year: int
    var month: int
    var day: int

    ghost predicate Valid()
      reads this
    {
      ValidDate(Value())
    }

    function Value(): CalDate
      reads this
    {
      CalDate(year, month, day)
    }

    /** `new Date(y, m, n)`. */
    constructor (y: int, m: int, n: nat)
      requires 0 <= y && 0 <= m < 12
      requires n == 0 ==> m > 0 || y > 0
      ensures Valid() && Value() == MakeDate(y, m, n)
    {
      var d := MakeDate(y, m, n);
      year, month, day := d.year, d.month, d.day;
    }

    /** `new Date(base)`: a copy. */
    constructor Copy(base: CalDate)
      requires ValidDate(base)
      ensures Valid() && Value() == base
    {
      year, month, day := base.year, base.month, base.day;
    }

    /** `setDate(n)`: day `n` of the current month, carried over. */
    method SetDate(n: nat)
      requires Valid()
      requires n == 0 ==> month > 0 || year > 0
      modifies this
      ensures Valid() && Value() == MakeDate(old(year), old(month), n)
    {
      var d := MakeDate(year, month, n);
      year, month, day := d.year, d.month, d.day;
    }

    /** `setFullYear(y)`: the same month and day in year `y`, carried over
        when that day does not exist there (29 February). */
    method SetFullYear(y: nat)
      requires Valid()
      modifies this
      ensures Valid() && Value() == MakeDate(y, old(month), old(day))
    {
      var d := MakeDate(y, month, day);
      year, month, day := d.year, d.month, d.day;
    }
  }
}
