/** Billing periods: calendar months, and the stored period of a subscription rolled forward
    month by month to the current instant. */
module BillingPeriods {
  import opened Calendar
  import opened Options

  datatype Period = Period(start: Instant, end: Instant)

  predicate Ordered(p: Period) {
    Ticks(p.start) < Ticks(p.end)
  }

  predicate Contains(p: Period, t: Instant) {
    Ticks(p.start) <= Ticks(t) < Ticks(p.end)
  }

  function CalendarPeriod(now: Instant): Period {
    var start := DateTime(now.year, now.month, 1, 0);
    Period(start, AddMonth(start))
  }

  function Roll(p: Period, now: Instant): Period
    decreases Ticks(now) - Ticks(p.end)
  {
    if Ticks(now) < Ticks(p.end) then p
    else
      MonthStepLength(p.end);
      Roll(Period(p.end, AddMonth(p.end)), now)
  }

  /** The period in force at `now` for a stored row, or for a missing one. */
  function PeriodAt(row: Option<Period>, now: Instant): Period {
    if row.None? || !Ordered(row.value) then CalendarPeriod(now)
    else if Ticks(now) < Ticks(row.value.start) then row.value
    else Roll(row.value, now)
  }

  /** The period a webhook describes: a boundary it leaves out is that of the calendar month. */
  function DescribedPeriod(start: Option<Instant>, end: Option<Instant>, now: Instant): Period {
    var month := CalendarPeriod(now);
    Period(if start.Some? then start.value else month.start, if end.Some? then end.value else month.end)
  }

  // ----- Reference definition: the boundaries of a row -----

  /** The k-th boundary: the stored start, the stored end, then one month step after another. */
  function Boundary(p: Period, k: nat): Instant {
    if k == 0 then p.start else AddMonths(p.end, k - 1)
  }

  function Slot(p: Period, k: nat): Period {
    Period(Boundary(p, k), Boundary(p, k + 1))
  }

  lemma {:induction false} BoundariesIncrease(p: Period, j: nat, k: nat)
    requires Ordered(p) && j < k
    ensures Ticks(Boundary(p, j)) < Ticks(Boundary(p, k))
    decreases k
  {
    hide Ticks, DayNumber, MonthLength;
    if k > 1 {
      MonthStepLength(Boundary(p, k - 1));
    }
    if j < k - 1 {
      BoundariesIncrease(p, j, k - 1);
    }
  }

  /** At most one slot contains an instant. */
  lemma SlotUnique(p: Period, j: nat, k: nat, t: Instant)
    requires Ordered(p)
    requires Contains(Slot(p, j), t) && Contains(Slot(p, k), t)
    ensures j == k
  {
    hide Ticks, DayNumber, MonthLength;
    if j + 1 < k {
      BoundariesIncrease(p, j + 1, k);
    } else if k + 1 < j {
      BoundariesIncrease(p, k + 1, j);
    }
  }

  /** The slots counted from slot `k` are the slots from `k` on. */
  lemma SlotShift(p: Period, k: nat, j: nat)
    ensures Slot(Slot(p, k), j) == Slot(p, k + j)
  {
    hide Ticks, DayNumber, MonthLength;
    if k > 0 {
      AddMonthsAdd(p.end, k, j);
      if j > 0 {
        AddMonthsAdd(p.end, k, j - 1);
      }
    }
  }

  lemma DayOrder(a: Instant, b: Instant)
    requires Ticks(a) <= Ticks(b)
    ensures DayNumber(a) <= DayNumber(b)
  {
    hide DayNumber;
  }

  lemma SlotDistance(p: Period, k: nat, now: Instant)
    requires k > 0 && Contains(Slot(p, k), now)
    ensures 28 * (k - 1) <= DayNumber(now) - DayNumber(p.end) <= 31 * k
  {
    hide Ticks, DayNumber, MonthLength;
    MonthStepsLength(p.end, k - 1);
    MonthStepsLength(p.end, k);
    DayOrder(Boundary(p, k), now);
    DayOrder(now, Boundary(p, k + 1));
  }

  /** The rolling loop. It returns the slot that contains `now`, and takes one turn per slot
      passed: at most one more than the whole 28-day spans, at least one more than the whole
      31-day spans, between the stored end and `now`. */
  method RollForward(p: Period, now: Instant) returns (start: Instant, end: Instant, ghost turns: nat)
    requires Ordered(p) && Ticks(p.start) <= Ticks(now)
    ensures Period(start, end) == Slot(p, turns)
    ensures Contains(Period(start, end), now)
    ensures Period(start, end) == Roll(p, now)
    ensures turns > 0 ==> 28 * (turns - 1) <= DayNumber(now) - DayNumber(p.end) <= 31 * turns
    ensures turns == 0 <==> Ticks(now) < Ticks(p.end)
  {
    hide Ticks, DayNumber, MonthLength;
    start, end := p.start, p.end;
    turns := 0;
    while Ticks(now) >= Ticks(end)
      invariant Period(start, end) == Slot(p, turns)
      invariant Ticks(start) <= Ticks(now)
      invariant turns > 0 ==> Ticks(p.end) <= Ticks(now)
      invariant Roll(Period(start, end), now) == Roll(p, now)
      decreases Ticks(now) - Ticks(end)
    {
      MonthStepLength(end);
      start, end := end, AddMonth(end);
      turns := turns + 1;
    }
    if turns > 0 {
      SlotDistance(p, turns, now);
    }
  }

  lemma {:induction false} RollFindsSlot(p: Period, now: Instant) returns (k: nat)
    requires Ordered(p) && Ticks(p.start) <= Ticks(now)
    ensures Roll(p, now) == Slot(p, k)
    ensures Contains(Slot(p, k), now)
    decreases Ticks(now) - Ticks(p.end)
  {
    hide Ticks, DayNumber, MonthLength;
    if Ticks(now) < Ticks(p.end) {
      k := 0;
    } else {
      MonthStepLength(p.end);
      k := RollFindsSlot(Slot(p, 1), now);
      SlotShift(p, 1, k);
      k := k + 1;
    }
  }

  /** `Roll` is the slot that contains the instant, whichever way that slot was found. */
  lemma RollIsTheSlot(p: Period, k: nat, now: Instant)
    requires Ordered(p) && Contains(Slot(p, k), now)
    ensures Ticks(p.start) <= Ticks(now)
    ensures Roll(p, now) == Slot(p, k)
  {
    hide Ticks, DayNumber, MonthLength;
    if k > 0 {
      BoundariesIncrease(p, 0, k);
    }
    var found := RollFindsSlot(p, now);
    SlotUnique(p, found, k, now);
  }

  /** The source function, branch by branch, against the specification of the rolled period. */
  method SubscriptionPeriod(row: Option<Period>, now: Instant) returns (p: Period)
    ensures p == PeriodAt(row, now)
    ensures Ordered(p)
    ensures Governs(row, now) ==> Contains(p, now)
  {
    hide Ticks, DayNumber, MonthLength;
    CalendarContains(now);
    if row.None? {
      return CalendarPeriod(now);
    }
    var start, end := row.value.start, row.value.end;
    if Ticks(end) <= Ticks(start) {
      return CalendarPeriod(now);
    }
    if Ticks(now) < Ticks(start) {
      return Period(start, end);
    }
    ghost var turns;
    start, end, turns := RollForward(row.value, now);
    return Period(start, end);
  }

  // ----- Calendar months -----

  lemma CalendarContains(now: Instant)
    ensures Ordered(CalendarPeriod(now)) && Contains(CalendarPeriod(now), now)
  {
    hide MonthStart, MonthLength;
    var start := CalendarPeriod(now).start;
    IndexOfParts(now);
    AddMonthIndex(start);
    MonthsAreContiguous(MonthIndex(now));
  }

  /** The k-th boundary of a calendar month is the first instant of the month `k` later. */
  lemma CalendarBoundary(a: Instant, b: Instant, k: nat)
    requires MonthIndex(b) == MonthIndex(a) + k
    ensures Boundary(CalendarPeriod(a), k) == CalendarPeriod(b).start
  {
    var first := CalendarPeriod(a).start;
    if k > 0 {
      AddMonthsAdd(first, 1, k - 1);
    }
    RepeatedAddition(first, k);
  }

  /** Rolling a calendar month forward gives the calendar month of the later instant. */
  lemma CalendarRolls(a: Instant, b: Instant)
    requires Ticks(a) <= Ticks(b)
    ensures Roll(CalendarPeriod(a), b) == CalendarPeriod(b)
  {
    hide Ticks, DayNumber, MonthLength;
    MonthOrder(a, b);
    CalendarContains(a);
    CalendarContains(b);
    var k := MonthIndex(b) - MonthIndex(a);
    CalendarBoundary(a, b, k);
    assert Slot(CalendarPeriod(a), k) == CalendarPeriod(b) by {
      if k == 0 {
        assert CalendarPeriod(a) == CalendarPeriod(b);
      }
    }
    RollIsTheSlot(CalendarPeriod(a), k, b);
  }

  // ----- Described periods -----

  predicate IsFirstOf(t: Instant, index: int) {
    MonthIndex(t) == index && t.day == 1 && t.tick == 0
  }

  /** The period has the boundaries given; a missing start is the first instant of the month of
      `now`, a missing end that of the month after. */
  predicate IsDescribed(p: Period, start: Option<Instant>, end: Option<Instant>, now: Instant) {
    && (match start case Some(a) => p.start == a case None => IsFirstOf(p.start, MonthIndex(now)))
    && (match end case Some(b) => p.end == b case None => IsFirstOf(p.end, MonthIndex(now) + 1))
  }

  /** The boundaries given leave no time between start and end. */
  predicate Backward(start: Option<Instant>, end: Option<Instant>, now: Instant) {
    match (start, end)
    case (Some(a), Some(b)) => Ticks(b) <= Ticks(a)
    case (Some(a), None) => MonthIndex(now) < MonthIndex(a)
    case (None, Some(b)) => MonthIndex(b) < MonthIndex(now) || IsFirstOf(b, MonthIndex(now))
    case (None, None) => false
  }

  /** The first instant of a month comes before or at exactly the instants of that and later months. */
  lemma FirstOfMonth(first: Instant, t: Instant)
    requires first.day == 1 && first.tick == 0
    ensures Ticks(first) <= Ticks(t) <==> MonthIndex(first) <= MonthIndex(t)
  {
    if MonthIndex(first) <= MonthIndex(t) {
      MonthStartsIncrease(MonthIndex(first), MonthIndex(t));
    } else if Ticks(first) <= Ticks(t) {
      MonthOrder(first, t);
    }
  }

  /** What a description means: the boundaries it gives are kept, the others are those of the month,
      and the period is legal unless they run backward. */
  lemma DescribedPeriodMeaning(start: Option<Instant>, end: Option<Instant>, now: Instant)
    ensures IsDescribed(DescribedPeriod(start, end, now), start, end, now)
    ensures Ordered(DescribedPeriod(start, end, now)) <==> !Backward(start, end, now)
  {
    hide Ticks;
    var month := CalendarPeriod(now);
    AddMonthIndex(month.start);
    CalendarContains(now);
    if start.Some? {
      FirstOfMonth(month.end, start.value);
    } else if end.Some? {
      FirstOfMonth(month.start, end.value);
      if Ticks(end.value) == Ticks(month.start) {
        TicksInjective(end.value, month.start);
      } else if IsFirstOf(end.value, MonthIndex(now)) {
        FirstOfMonth(end.value, month.start);
      }
    }
  }

  // ----- Main results -----

  /** Instants the stored row speaks about: every instant when the row is missing or degenerate,
      otherwise those from the stored start onward. */
  predicate Governs(row: Option<Period>, t: Instant) {
    row.None? || !Ordered(row.value) || Ticks(row.value.start) <= Ticks(t)
  }

  /** Writing back the period rolled at `a` and rolling again at a later `b` gives what rolling
      the original row at `b` gives, for every row, missing and degenerate ones included. */
  lemma RollingIsPathIndependent(row: Option<Period>, a: Instant, b: Instant)
    requires Ticks(a) <= Ticks(b)
    ensures PeriodAt(Some(PeriodAt(row, a)), b) == PeriodAt(row, b)
  {
    hide Ticks, DayNumber, MonthLength;
    CalendarContains(a);
    if row.None? || !Ordered(row.value) {
      CalendarRolls(a, b);
    } else if Ticks(row.value.start) <= Ticks(a) {
      var p := row.value;
      var i := RollFindsSlot(p, a);
      var k := RollFindsSlot(p, b);
      if k < i {
        if k + 1 < i {
          BoundariesIncrease(p, k + 1, i);
        }
      } else {
        SlotShift(p, i, k - i);
        RollIsTheSlot(Slot(p, i), k - i, b);
      }
    }
  }

  /** The periods of a row partition the instants it governs: each contains its instant, and two
      of them are the same period or do not overlap. */
  lemma PeriodsPartition(row: Option<Period>, a: Instant, b: Instant)
    requires Governs(row, a) && Governs(row, b)
    ensures Ordered(PeriodAt(row, a)) && Contains(PeriodAt(row, a), a)
    ensures PeriodAt(row, a) == PeriodAt(row, b)
         || Ticks(PeriodAt(row, a).end) <= Ticks(PeriodAt(row, b).start)
         || Ticks(PeriodAt(row, b).end) <= Ticks(PeriodAt(row, a).start)
    ensures Contains(PeriodAt(row, a), b) <==> PeriodAt(row, a) == PeriodAt(row, b)
  {
    hide Ticks, DayNumber, MonthLength;
    CalendarContains(a);
    CalendarContains(b);
    if row.None? || !Ordered(row.value) {
      if Ticks(a) <= Ticks(b) {
        CalendarsDisjoint(a, b);
      } else {
        CalendarsDisjoint(b, a);
      }
    } else {
      var p := row.value;
      var i := RollFindsSlot(p, a);
      var k := RollFindsSlot(p, b);
      if i + 1 < k {
        BoundariesIncrease(p, i + 1, k);
      } else if k + 1 < i {
        BoundariesIncrease(p, k + 1, i);
      }
    }
  }

  lemma CalendarsDisjoint(a: Instant, b: Instant)
    requires Ticks(a) <= Ticks(b)
    ensures CalendarPeriod(a) == CalendarPeriod(b) || Ticks(CalendarPeriod(a).end) <= Ticks(CalendarPeriod(b).start)
  {
    hide Ticks, DayNumber, MonthLength;
    CalendarRolls(a, b);
    CalendarContains(a);
    var k := RollFindsSlot(CalendarPeriod(a), b);
    if k > 1 {
      BoundariesIncrease(CalendarPeriod(a), 1, k);
    }
  }

  /** The periods leave no gap: each one's end is the first instant of the next, and is the same
      date and time, not only equally late. */
  lemma PeriodsHaveNoGaps(row: Option<Period>, a: Instant)
    requires Governs(row, a)
    ensures var end := PeriodAt(row, a).end;
      Governs(row, end) && PeriodAt(row, end).start == end
  {
    hide Ticks, PeriodAt;
    var p := PeriodAt(row, a);
    PeriodsPartition(row, a, a);
    assert Governs(row, p.end);
    PeriodsPartition(row, p.end, a);
    TicksInjective(PeriodAt(row, p.end).start, p.end);
  }

  /** Two rows bill all instants from `now` on alike if and only if they bill `now` alike. */
  lemma SameBillingIff(row: Option<Period>, row': Option<Period>, now: Instant)
    ensures PeriodAt(row, now) == PeriodAt(row', now) <==>
      forall x: Instant | Ticks(now) <= Ticks(x) :: PeriodAt(row, x) == PeriodAt(row', x)
  {
    hide Ticks, PeriodAt;
    if PeriodAt(row, now) == PeriodAt(row', now) {
      forall x: Instant | Ticks(now) <= Ticks(x) ensures PeriodAt(row, x) == PeriodAt(row', x) {
        RollingIsPathIndependent(row, now, x);
        RollingIsPathIndependent(row', now, x);
      }
    }
  }
}
