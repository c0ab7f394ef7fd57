/** Gregorian instants in UTC and the month step of the billing code (`add_month`).
    Years are unbounded; an instant counts microseconds within its day. */
module Calendar {

  datatype DateTime = DateTime(year: int, month: int, day: int, tick: int)

  predicate IsLeap(year: int) {
    year % 4 == 0 && (year % 100 != 0 || year % 400 == 0)
  }

  function MonthLength(year: int, month: int): (n: int)
    ensures 28 <= n <= 31
  {
    if month == 2 then (if IsLeap(year) then 29 else 28)
    else if month == 4 || month == 6 || month == 9 || month == 11 then 30
    else 31
  }

  predicate Valid(d: DateTime) {
    && 1 <= d.month <= 12
    && 1 <= d.day <= MonthLength(d.year, d.month)
    && 0 <= d.tick < 86_400_000_000
  }

  type Instant = d: DateTime | Valid(d) witness DateTime(1970, 1, 1, 0)

  function AddMonth(v: Instant): Instant {
    var year := if v.month == 12 then v.year + 1 else v.year;
    var month := if v.month == 12 then 1 else v.month + 1;
    var length := MonthLength(year, month);
    DateTime(year, month, if v.day < length then v.day else length, v.tick)
  }

  /** `AddMonth` applied `k` times. */
  function AddMonths(v: Instant, k: nat): Instant
    decreases k
  {
    if k == 0 then v else AddMonth(AddMonths(v, k - 1))
  }

  // ----- Linear time -----

  /** Months since January of year 0; the carry of `AddMonth` is plain addition here. */
  function MonthIndex(v: Instant): int {
    12 * v.year + v.month - 1
  }

  function LengthAt(index: int): (n: int)
    ensures 28 <= n <= 31
  {
    MonthLength(index / 12, index % 12 + 1)
  }

  function DaysBeforeYear(year: int): int {
    365 * (year - 1) + (year - 1) / 4 - (year - 1) / 100 + (year - 1) / 400
  }

  function DaysBeforeMonth(year: int, month: int): int
    requires 1 <= month <= 12
    decreases month
  {
    if month == 1 then 0 else DaysBeforeMonth(year, month - 1) + MonthLength(year, month - 1)
  }

  /** Day number of the first day of a month. */
  function MonthStart(index: int): int {
    DaysBeforeYear(index / 12) + DaysBeforeMonth(index / 12, index % 12 + 1)
  }

  function DayNumber(v: Instant): int {
    MonthStart(MonthIndex(v)) + v.day - 1
  }

  /** The instant in microseconds on one line; all comparisons of instants go through it. */
  function Ticks(v: Instant): int {
    DayNumber(v) * 86_400_000_000 + v.tick
  }

  // ----- The line is faithful to the calendar -----

  lemma QuotientStep(n: int, d: int)
    requires d == 4 || d == 100 || d == 400
    ensures n / d - (n - 1) / d == if n % d == 0 then 1 else 0
  {
  }

  lemma CenturiesAreMultiples(year: int)
    ensures year % 100 == 0 ==> year % 4 == 0
    ensures year % 400 == 0 ==> year % 100 == 0
  {
    MultipleOfMultiple(year, 4, 25);
    MultipleOfMultiple(year, 100, 4);
  }

  /** A multiple of `d * k` is a multiple of `d`. */
  lemma MultipleOfMultiple(n: int, d: int, k: int)
    requires (d == 4 && k == 25) || (d == 100 && k == 4)
    ensures n % (d * k) == 0 ==> n % d == 0
  {
  }

  lemma LeapDays(year: int)
    ensures DaysBeforeYear(year + 1) - DaysBeforeYear(year) == if IsLeap(year) then 366 else 365
  {
    QuotientStep(year, 4);
    QuotientStep(year, 100);
    QuotientStep(year, 400);
    CenturiesAreMultiples(year);
  }

  lemma DecemberStart(year: int)
    ensures DaysBeforeMonth(year, 12) == if IsLeap(year) then 335 else 334
  {
    assert DaysBeforeMonth(year, 3) == 31 + MonthLength(year, 2);
    assert DaysBeforeMonth(year, 5) == DaysBeforeMonth(year, 3) + 61;
    assert DaysBeforeMonth(year, 7) == DaysBeforeMonth(year, 5) + 61;
    assert DaysBeforeMonth(year, 9) == DaysBeforeMonth(year, 7) + 62;
    assert DaysBeforeMonth(year, 11) == DaysBeforeMonth(year, 9) + 61;
  }

  /** Each month starts where the one before it ends, across year ends and leap days. */
  lemma MonthsAreContiguous(index: int)
    ensures MonthStart(index + 1) == MonthStart(index) + LengthAt(index)
  {
    if index % 12 == 11 {
      LeapDays(index / 12);
      DecemberStart(index / 12);
      assert (index + 1) / 12 == index / 12 + 1 && (index + 1) % 12 == 0;
    } else {
      assert (index + 1) / 12 == index / 12 && (index + 1) % 12 == index % 12 + 1;
    }
  }

  /** The month table against the usual count of civil days: with years counted from March, `k` months
      hold (153 k + 2) / 5 days, and the leap days follow from the year alone. */
  lemma MonthStartIsCivil(index: int)
    ensures var y, k := (index - 2) / 12, (index - 2) % 12;
      MonthStart(index) == 365 * y + y / 4 - y / 100 + y / 400 + (153 * k + 2) / 5 - 306
  {
    var y, k := (index - 2) / 12, (index - 2) % 12;
    MarchStart(y);
    FromMarch(y, k);
  }

  lemma MarchStart(y: int)
    ensures MonthStart(12 * y + 2) == DaysBeforeYear(y + 1) - 306
  {
    LeapDays(y);
    assert DaysBeforeMonth(y, 3) == 31 + MonthLength(y, 2);
  }

  lemma {:induction false} FromMarch(y: int, k: nat)
    requires k < 12
    ensures MonthStart(12 * y + 2 + k) == MonthStart(12 * y + 2) + (153 * k + 2) / 5
    decreases k
  {
    hide MonthStart;
    if k > 0 {
      FromMarch(y, k - 1);
      MonthsAreContiguous(12 * y + 1 + k);
    }
  }

  /** Months of 30 and 31 days alternate, with July and August both long; February has 28 days, and
      one more in a year of 366. */
  lemma MonthLengths(year: int, month: int)
    requires 1 <= month <= 12
    ensures MonthLength(year, month) ==
      if month == 2 then DaysBeforeYear(year + 1) - DaysBeforeYear(year) - 337 else 30 + (month + month / 8) % 2
  {
    LeapDays(year);
  }

  lemma {:induction false} MonthStartsIncrease(lo: int, hi: int)
    requires lo <= hi
    ensures MonthStart(lo) + 28 * (hi - lo) <= MonthStart(hi)
    decreases hi - lo
  {
    if lo < hi {
      MonthStartsIncrease(lo, hi - 1);
      MonthsAreContiguous(hi - 1);
    }
  }

  lemma IndexOfParts(v: Instant)
    ensures MonthIndex(v) / 12 == v.year
    ensures MonthIndex(v) % 12 + 1 == v.month
    ensures LengthAt(MonthIndex(v)) == MonthLength(v.year, v.month)
  {
  }

  /** Later instants are in the same or a later month. */
  lemma MonthOrder(a: Instant, b: Instant)
    requires Ticks(a) <= Ticks(b)
    ensures MonthIndex(a) <= MonthIndex(b)
  {
    IndexOfParts(a);
    IndexOfParts(b);
    if MonthIndex(b) < MonthIndex(a) {
      MonthStartsIncrease(MonthIndex(b) + 1, MonthIndex(a));
      MonthsAreContiguous(MonthIndex(b));
    }
  }

  /** The line tells any two instants apart. */
  lemma TicksInjective(a: Instant, b: Instant)
    requires Ticks(a) == Ticks(b)
    ensures a == b
  {
    hide MonthStart;
    MonthOrder(a, b);
    MonthOrder(b, a);
  }

  // ----- The month step -----

  lemma AddMonthIndex(v: Instant)
    ensures MonthIndex(AddMonth(v)) == MonthIndex(v) + 1
    ensures AddMonth(v).day == (if v.day < LengthAt(MonthIndex(v) + 1) then v.day else LengthAt(MonthIndex(v) + 1))
  {
    IndexOfParts(AddMonth(v));
  }

  /** One month step moves forward by 28 to 31 days, to the microsecond. */
  lemma MonthStepLength(v: Instant)
    ensures 28 <= DayNumber(AddMonth(v)) - DayNumber(v) <= 31
    ensures Ticks(v) < Ticks(AddMonth(v))
    ensures Ticks(AddMonth(v)) - Ticks(v) == (DayNumber(AddMonth(v)) - DayNumber(v)) * 86_400_000_000
  {
    AddMonthIndex(v);
    IndexOfParts(v);
    MonthsAreContiguous(MonthIndex(v));
  }

  lemma {:induction false} MonthStepsLength(v: Instant, k: nat)
    ensures 28 * k <= DayNumber(AddMonths(v, k)) - DayNumber(v) <= 31 * k
    ensures AddMonths(v, k).tick == v.tick
    decreases k
  {
    hide MonthStart, MonthLength, DayNumber;
    if k > 0 {
      MonthStepsLength(v, k - 1);
      MonthStepLength(AddMonths(v, k - 1));
    }
  }

  lemma {:induction false} AddMonthsAdd(v: Instant, j: nat, k: nat)
    ensures AddMonths(AddMonths(v, j), k) == AddMonths(v, j + k)
    decreases k
  {
    if k > 0 {
      AddMonthsAdd(v, j, k - 1);
    }
  }

  /** Closed form of repeated month addition: the month advances by exactly `k`, and the day is
      the minimum of the starting day and the lengths of all the months passed through. */
  lemma {:induction false} RepeatedAddition(v: Instant, k: nat)
    ensures MonthIndex(AddMonths(v, k)) == MonthIndex(v) + k
    ensures AddMonths(v, k).tick == v.tick
    ensures AddMonths(v, k).day <= v.day
    ensures forall i :: MonthIndex(v) < i <= MonthIndex(v) + k ==> AddMonths(v, k).day <= LengthAt(i)
    ensures AddMonths(v, k).day == v.day
         || exists i :: MonthIndex(v) < i <= MonthIndex(v) + k && AddMonths(v, k).day == LengthAt(i)
    decreases k
  {
    if k > 0 {
      RepeatedAddition(v, k - 1);
      AddMonthIndex(AddMonths(v, k - 1));
    }
  }

  /** A day of at most 28 is never clamped again. */
  lemma {:induction false} SettledDay(v: Instant, j: nat, k: nat)
    requires AddMonths(v, j).day <= 28
    requires j <= k
    ensures AddMonths(v, k).day == AddMonths(v, j).day
    decreases k
  {
    if j < k {
      SettledDay(v, j, k - 1);
      AddMonthIndex(AddMonths(v, k - 1));
    }
  }
}
