/** Quota accounting: usage recording, plan changes and webhooks as transactions that interleave at
    the granularity of the organization row lock. The clock advances between any two steps, and a
    recording reads it twice: once to find the billing period, once to date the event. */
module Quota {
  import opened BillingPeriods
  import opened Calendar
  import opened Options
  import opened Plans

  type OrgId = nat
  type TxnId = nat

  datatype Subscription = Subscription(plan: Plan, period: Period)
  datatype UsageEvent = UsageEvent(org: OrgId, metric: string, quantity: int, at: Instant)

  datatype Txn =
    | Recording(org: OrgId, metric: string, quantity: int, phase: RecordPhase)
    | Changing(org: OrgId, plan: Plan, change: ChangePhase)
    | Webhook(org: OrgId, describes: Option<Description>, hook: HookPhase)

  /** What a created or updated subscription says; cancellations and failed payments say nothing
      that matters here. */
  datatype Description = Description(plan: Plan, start: Option<Instant>, end: Option<Instant>)

  datatype RecordPhase = Waiting | Locked | Checked(checkedAt: Instant) | Stamped(checkedAt: Instant, at: Instant)
  datatype ChangePhase = Queued | Holding | Loaded(row: Period) | Rolled(row: Period)
  datatype HookPhase = Asked | Owned | Opened(sub: Subscription) | Priced(sub: Subscription)

  /** `origin` and `peak` are history: the row each organization started with, and the largest
      quota that has been in force for it. No step reads them. */
  datatype Db = Db(
    clock: Instant,
    subscriptions: map<OrgId, Option<Subscription>>,
    usage: seq<UsageEvent>,
    origin: map<OrgId, Option<Period>>,
    peak: map<OrgId, nat>)

  datatype State = State(db: Db, locks: map<OrgId, TxnId>, txns: map<TxnId, Txn>)

  datatype Action =
    | Tick(to: Instant)
    | Begin(t: TxnId, txn: Txn)
    | Lock(t: TxnId)
    | Check(t: TxnId)
    | Stamp(t: TxnId)
    | Load(t: TxnId)
    | RollPeriod(t: TxnId)
    | Open(t: TxnId)
    | Price(t: TxnId)
    | Commit(t: TxnId)
    | Abort(t: TxnId)

  function RowOf(sub: Option<Subscription>): Option<Period> {
    if sub.Some? then Some(sub.value.period) else None
  }

  function PlanOf(sub: Option<Subscription>): Plan {
    if sub.Some? then sub.value.plan else Free
  }

  function PeakOf(db: Db, org: OrgId): nat {
    if org in db.peak then db.peak[org] else 0
  }

  predicate Counts(e: UsageEvent, org: OrgId, metric: string, p: Period) {
    e.org == org && e.metric == metric && Contains(p, e.at)
  }

  /** Sum of the quantities dated within a period. */
  function Used(usage: seq<UsageEvent>, org: OrgId, metric: string, p: Period): int {
    if usage == [] then 0
    else
      var e := usage[|usage| - 1];
      Used(usage[..|usage| - 1], org, metric, p) + if Counts(e, org, metric, p) then e.quantity else 0
  }

  predicate Running(txn: Txn) {
    match txn
    case Recording(_, _, _, phase) => !phase.Waiting?
    case Changing(_, _, change) => !change.Queued?
    case Webhook(_, _, hook) => !hook.Asked?
  }

  /** The legal effect of a webhook on the subscription it found. */
  function Described(sub: Subscription, describes: Option<Description>, now: Instant): Subscription {
    match describes
    case None => sub
    case Some(d) => Subscription(d.plan, DescribedPeriod(d.start, d.end, now))
  }

  predicate Enabled(s: State, a: Action) {
    match a
    case Tick(to) => Ticks(s.db.clock) <= Ticks(to)
    case Begin(t, txn) => t !in s.txns && !Running(txn) && (txn.Recording? ==> txn.quantity >= 1)
    case Lock(t) =>
      t in s.txns && !Running(s.txns[t]) && s.txns[t].org in s.db.subscriptions && s.txns[t].org !in s.locks
    case Check(t) =>
      t in s.txns && s.txns[t].Recording? && s.txns[t].phase.Locked? && s.txns[t].org in s.db.subscriptions
    case Stamp(t) => t in s.txns && s.txns[t].Recording? && s.txns[t].phase.Checked?
    case Load(t) =>
      t in s.txns && s.txns[t].Changing? && s.txns[t].change.Holding? && s.txns[t].org in s.db.subscriptions
    case RollPeriod(t) => t in s.txns && s.txns[t].Changing? && s.txns[t].change.Loaded?
    case Open(t) =>
      t in s.txns && s.txns[t].Webhook? && s.txns[t].hook.Owned? && s.txns[t].org in s.db.subscriptions
    case Price(t) =>
      && t in s.txns && s.txns[t].Webhook? && s.txns[t].hook.Opened?
      && (s.txns[t].describes.Some? ==>
            Ordered(Described(s.txns[t].hook.sub, s.txns[t].describes, s.db.clock).period))
    case Commit(t) =>
      && t in s.txns
      && (match s.txns[t]
          case Recording(_, _, _, phase) => phase.Stamped?
          case Changing(_, _, change) => change.Rolled?
          case Webhook(_, _, hook) => hook.Priced?)
    case Abort(t) => t in s.txns
  }

  /** Ends a transaction and frees its lock, changing no row. */
  function Release(s: State, t: TxnId): State
    requires t in s.txns
  {
    var org := s.txns[t].org;
    s.(txns := s.txns - {t}, locks := if org in s.locks && s.locks[org] == t then s.locks - {org} else s.locks)
  }

  function Advance(s: State, t: TxnId, txn: Txn): State {
    s.(txns := s.txns[t := txn])
  }

  /** The subscription row is written. */
  function Stored(db: Db, org: OrgId, sub: Subscription): Db {
    var quota := QuotaOf(sub.plan);
    db.(subscriptions := db.subscriptions[org := Some(sub)],
        peak := db.peak[org := if PeakOf(db, org) < quota then quota else PeakOf(db, org)])
  }

  function Do(s: State, a: Action): State
    requires Enabled(s, a)
  {
    match a
    case Tick(to) => s.(db := s.db.(clock := to))
    case Begin(t, txn) => Advance(s, t, txn)
    case Lock(t) =>
      var txn := s.txns[t];
      var held := match txn
        case Recording(_, _, _, _) => txn.(phase := Locked)
        case Changing(_, _, _) => txn.(change := Holding)
        case Webhook(_, _, _) => txn.(hook := Owned);
      Advance(s, t, held).(locks := s.locks[txn.org := t])
    case Check(t) =>
      var txn := s.txns[t];
      var sub := s.db.subscriptions[txn.org];
      var used := Used(s.db.usage, txn.org, txn.metric, PeriodAt(RowOf(sub), s.db.clock));
      if used + txn.quantity > QuotaOf(PlanOf(sub)) then Release(s, t)
      else Advance(s, t, txn.(phase := Checked(s.db.clock)))
    case Stamp(t) =>
      var txn := s.txns[t];
      Advance(s, t, txn.(phase := Stamped(txn.phase.checkedAt, s.db.clock)))
    case Load(t) =>
      var txn := s.txns[t];
      var sub := s.db.subscriptions[txn.org];
      var row := if sub.Some? then sub.value.period else CalendarPeriod(s.db.clock);
      Advance(s, t, txn.(change := Loaded(row)))
    case RollPeriod(t) =>
      var txn := s.txns[t];
      Advance(s, t, txn.(change := Rolled(PeriodAt(Some(txn.change.row), s.db.clock))))
    case Open(t) =>
      var txn := s.txns[t];
      var sub := s.db.subscriptions[txn.org];
      var found := if sub.Some? then sub.value else Subscription(Free, CalendarPeriod(s.db.clock));
      Advance(s, t, txn.(hook := Opened(found)))
    case Price(t) =>
      var txn := s.txns[t];
      Advance(s, t, txn.(hook := Priced(Described(txn.hook.sub, txn.describes, s.db.clock))))
    case Commit(t) =>
      (match s.txns[t]
       case Recording(org, metric, quantity, phase) =>
         Release(s, t).(db := s.db.(usage := s.db.usage + [UsageEvent(org, metric, quantity, phase.at)]))
       case Changing(org, plan, change) => Release(s, t).(db := Stored(s.db, org, Subscription(plan, change.row)))
       case Webhook(org, _, hook) => Release(s, t).(db := Stored(s.db, org, hook.sub)))
    case Abort(t) => Release(s, t)
  }

  /** No usage yet, nothing running, and no stored period starts in the future. */
  predicate Init(s: State) {
    && s.db.usage == [] && s.locks == map[] && s.txns == map[]
    && s.db.origin == (map org | org in s.db.subscriptions :: RowOf(s.db.subscriptions[org]))
    && s.db.peak == (map org | org in s.db.subscriptions :: QuotaOf(PlanOf(s.db.subscriptions[org])))
    && forall org | org in s.db.subscriptions :: Governs(RowOf(s.db.subscriptions[org]), s.db.clock)
  }

  predicate ValidRun(s: State, run: seq<Action>)
    decreases |run|
  {
    run == [] || (Enabled(s, run[0]) && ValidRun(Do(s, run[0]), run[1..]))
  }

  function After(s: State, run: seq<Action>): State
    requires ValidRun(s, run)
    decreases |run|
  {
    if run == [] then s else After(Do(s, run[0]), run[1..])
  }

  /** The webhook, if it is one, describes a period that bills this instant as the one it found does.
      By `SameBillingIff` it then bills every later instant alike too. */
  predicate KeepsPeriod(s: State, a: Action)
    requires Enabled(s, a)
  {
    a.Price? ==>
      var txn, now := s.txns[a.t], s.db.clock;
      PeriodAt(Some(Described(txn.hook.sub, txn.describes, now).period), now)
        == PeriodAt(Some(txn.hook.sub.period), now)
  }

  /** Every webhook of the run keeps the billing period it finds. */
  predicate PeriodsKept(s: State, run: seq<Action>)
    requires ValidRun(s, run)
    decreases |run|
  {
    run == [] || (KeepsPeriod(s, run[0]) && PeriodsKept(Do(s, run[0]), run[1..]))
  }

  // ----- Invariant -----

  /** From `clock` on, the row bills exactly as the row the organization started with. */
  ghost predicate Agrees(clock: Instant, origin: Option<Period>, row: Option<Period>) {
    forall x: Instant | Ticks(clock) <= Ticks(x) :: PeriodAt(row, x) == PeriodAt(origin, x)
  }

  /** Every billing period of the organization holds at most the largest quota so far. */
  ghost predicate Within(usage: seq<UsageEvent>, org: OrgId, origin: Option<Period>, peak: nat) {
    forall metric, x: Instant | Governs(origin, x) :: Used(usage, org, metric, PeriodAt(origin, x)) <= peak
  }

  ghost predicate OrgOk(db: Db, org: OrgId) {
    && org in db.origin && org in db.peak && org in db.subscriptions
    && Governs(db.origin[org], db.clock)
    && Agrees(db.clock, db.origin[org], RowOf(db.subscriptions[org]))
    && QuotaOf(PlanOf(db.subscriptions[org])) <= db.peak[org]
    && Within(db.usage, org, db.origin[org], db.peak[org])
  }

  ghost predicate DbOk(db: Db) {
    && (forall org | org in db.subscriptions :: OrgOk(db, org))
    && (forall e | e in db.usage :: Ticks(e.at) <= Ticks(db.clock) && e.quantity >= 1)
  }

  /** A checked recording: nothing of its organization is dated after the check, and the period
      of the check has room for it. */
  ghost predicate CheckOk(db: Db, txn: Txn, checkedAt: Instant)
    requires txn.Recording? && txn.org in db.origin && txn.org in db.peak
  {
    && Ticks(checkedAt) <= Ticks(db.clock)
    && Governs(db.origin[txn.org], checkedAt)
    && (forall e | e in db.usage && e.org == txn.org :: Ticks(e.at) <= Ticks(checkedAt))
    && Used(db.usage, txn.org, txn.metric, PeriodAt(db.origin[txn.org], checkedAt)) + txn.quantity <= db.peak[txn.org]
  }

  ghost predicate PhaseOk(db: Db, txn: Txn)
    requires txn.org in db.origin && txn.org in db.peak
  {
    match txn
    case Recording(_, _, _, Checked(c)) => CheckOk(db, txn, c)
    case Recording(_, _, _, Stamped(c, at)) => CheckOk(db, txn, c) && Ticks(c) <= Ticks(at) <= Ticks(db.clock)
    case Changing(org, _, Loaded(row)) => Agrees(db.clock, db.origin[org], Some(row))
    case Changing(org, _, Rolled(row)) => Agrees(db.clock, db.origin[org], Some(row))
    case Webhook(org, _, Opened(sub)) => Agrees(db.clock, db.origin[org], Some(sub.period))
    case Webhook(org, _, Priced(sub)) => Agrees(db.clock, db.origin[org], Some(sub.period))
    case _ => true
  }

  ghost predicate TxnOk(s: State, t: TxnId)
    requires t in s.txns
  {
    var txn := s.txns[t];
    && (txn.Recording? ==> txn.quantity >= 1)
    && (Running(txn) ==>
      && txn.org in s.locks && s.locks[txn.org] == t
      && txn.org in s.db.subscriptions && OrgOk(s.db, txn.org)
      && PhaseOk(s.db, txn))
  }

  ghost predicate Inv(s: State) {
    DbOk(s.db) && forall t | t in s.txns :: TxnOk(s, t)
  }

  lemma {:induction false} UsedNonNegative(usage: seq<UsageEvent>, org: OrgId, metric: string, p: Period)
    requires forall e | e in usage :: e.quantity >= 1
    ensures 0 <= Used(usage, org, metric, p)
  {
    if usage != [] {
      UsedNonNegative(usage[..|usage| - 1], org, metric, p);
    }
  }

  lemma {:induction false} UsedNothingBefore(usage: seq<UsageEvent>, org: OrgId, metric: string, p: Period)
    requires forall e | e in usage && e.org == org :: Ticks(e.at) < Ticks(p.start)
    ensures Used(usage, org, metric, p) == 0
  {
    hide Ticks;
    if usage != [] {
      UsedNothingBefore(usage[..|usage| - 1], org, metric, p);
    }
  }

  lemma UsedAppend(usage: seq<UsageEvent>, e: UsageEvent, org: OrgId, metric: string, p: Period)
    ensures Used(usage + [e], org, metric, p)
         == Used(usage, org, metric, p) + if Counts(e, org, metric, p) then e.quantity else 0
  {
    assert (usage + [e])[..|usage|] == usage;
  }

  lemma {:induction false} UsedConcat(a: seq<UsageEvent>, b: seq<UsageEvent>, org: OrgId, metric: string, p: Period)
    ensures Used(a + b, org, metric, p) == Used(a, org, metric, p) + Used(b, org, metric, p)
  {
    if b == [] {
      assert a + b == a;
    } else {
      var init, e := b[..|b| - 1], b[|b| - 1];
      assert a + b == (a + init) + [e] && b == init + [e];
      UsedConcat(a, init, org, metric, p);
      UsedAppend(a + init, e, org, metric, p);
    }
  }

  /** What is used in a period: events add up, in whatever order they were recorded, and one counts
      with its quantity if it is of that organization and metric and dated from the start of the
      period to before its end. */
  lemma UsedIsTheSum(a: seq<UsageEvent>, e: UsageEvent, b: seq<UsageEvent>, org: OrgId, metric: string, p: Period)
    ensures Used([], org, metric, p) == 0
    ensures Used(a + [e] + b, org, metric, p) == Used(a + b, org, metric, p)
      + if e.org == org && e.metric == metric && Ticks(p.start) <= Ticks(e.at) && Ticks(e.at) < Ticks(p.end)
        then e.quantity else 0
  {
    hide Ticks;
    UsedConcat(a + [e], b, org, metric, p);
    UsedConcat(a, b, org, metric, p);
    UsedAppend(a, e, org, metric, p);
  }

  /** The step that matters: an event checked in one period and dated in the same or any later
      one keeps every period within the largest quota so far. */
  lemma CheckedStaysWithin(db: Db, txn: Txn)
    requires DbOk(db) && OrgOk(db, txn.org)
    requires txn.Recording? && txn.phase.Stamped? && txn.quantity >= 1 && PhaseOk(db, txn)
    ensures Within(db.usage + [UsageEvent(txn.org, txn.metric, txn.quantity, txn.phase.at)], txn.org,
                   db.origin[txn.org], db.peak[txn.org])
  {
    hide Ticks, PeriodAt, Governs;
    var c, row := txn.phase.checkedAt, db.origin[txn.org];
    var e := UsageEvent(txn.org, txn.metric, txn.quantity, txn.phase.at);
    forall metric, x: Instant | Governs(row, x)
      ensures Used(db.usage + [e], txn.org, metric, PeriodAt(row, x)) <= db.peak[txn.org]
    {
      var p := PeriodAt(row, x);
      UsedAppend(db.usage, e, txn.org, metric, p);
      if Counts(e, txn.org, metric, p) {
        PeriodsPartition(row, x, c);
        if !Contains(p, c) {
          UsedNothingBefore(db.usage, txn.org, metric, p);
          UsedNonNegative(db.usage, txn.org, metric, PeriodAt(row, c));
        }
      }
    }
  }

  /** Appending a usage event touches the sums of its own organization only. */
  lemma OthersStayWithin(usage: seq<UsageEvent>, e: UsageEvent, org: OrgId, origin: Option<Period>, peak: nat)
    requires org != e.org && Within(usage, org, origin, peak)
    ensures Within(usage + [e], org, origin, peak)
  {
    hide PeriodAt, Governs, Contains;
    forall metric, x: Instant | Governs(origin, x)
      ensures Used(usage + [e], org, metric, PeriodAt(origin, x)) <= peak
    {
      UsedAppend(usage, e, org, metric, PeriodAt(origin, x));
    }
  }

  // ----- Every step keeps the invariant -----

  lemma GovernsLater(row: Option<Period>, a: Instant, b: Instant)
    requires Governs(row, a) && Ticks(a) <= Ticks(b)
    ensures Governs(row, b)
  {
    hide Ticks;
  }

  lemma RollAgrees(clock: Instant, origin: Option<Period>, row: Option<Period>)
    requires Agrees(clock, origin, row)
    ensures Agrees(clock, origin, Some(PeriodAt(row, clock)))
  {
    hide Ticks, PeriodAt;
    forall x: Instant | Ticks(clock) <= Ticks(x)
      ensures PeriodAt(Some(PeriodAt(row, clock)), x) == PeriodAt(origin, x)
    {
      RollingIsPathIndependent(row, clock, x);
    }
  }

  /** A webhook that keeps the period it found. */
  lemma PriceAgrees(clock: Instant, origin: Option<Period>, found: Period, described: Period)
    requires Agrees(clock, origin, Some(found)) && PeriodAt(Some(described), clock) == PeriodAt(Some(found), clock)
    ensures Agrees(clock, origin, Some(described))
  {
    hide Ticks, PeriodAt;
    SameBillingIff(Some(described), Some(found), clock);
  }

  /** The transaction taking a step that changes no row. */
  predicate IsPhaseStep(a: Action) {
    a.Check? || a.Stamp? || a.Load? || a.RollPeriod? || a.Open? || a.Price?
  }

  lemma PhaseStep(s: State, a: Action)
    requires Inv(s) && Enabled(s, a) && KeepsPeriod(s, a) && IsPhaseStep(a)
    ensures a.t in Do(s, a).txns ==> PhaseOk(s.db, Do(s, a).txns[a.t])
  {
    hide Ticks, Governs, Used, CalendarPeriod, Roll;
    assert TxnOk(s, a.t);
    var txn, clock := s.txns[a.t], s.db.clock;
    var origin, row := s.db.origin[txn.org], RowOf(s.db.subscriptions[txn.org]);
    if (a.Load? || a.Open?) && row.None? {
      RollAgrees(clock, origin, row);
    } else if a.RollPeriod? {
      RollAgrees(clock, origin, Some(txn.change.row));
    } else if a.Price? {
      PriceAgrees(clock, origin, txn.hook.sub.period, Described(txn.hook.sub, txn.describes, clock).period);
    }
  }

  lemma TickKeeps(s: State, to: Instant)
    requires Inv(s) && Enabled(s, Tick(to))
    ensures Inv(Do(s, Tick(to)))
  {
    hide Ticks, PeriodAt, Governs, Used;
    var s' := Do(s, Tick(to));
    forall org | org in s.db.subscriptions ensures OrgOk(s'.db, org) {
      GovernsLater(s.db.origin[org], s.db.clock, to);
    }
    forall t | t in s.txns ensures TxnOk(s', t) {
      assert TxnOk(s, t);
    }
  }

  lemma CommitKeeps(s: State, t: TxnId)
    requires Inv(s) && Enabled(s, Commit(t))
    ensures Inv(Do(s, Commit(t)))
  {
    hide Ticks, PeriodAt, Governs, Used, Agrees, Within;
    var s', txn := Do(s, Commit(t)), s.txns[t];
    assert TxnOk(s, t);
    if txn.Recording? {
      CheckedStaysWithin(s.db, txn);
    } else {
      WithinGrows(s.db.usage, txn.org, s.db.origin[txn.org], s.db.peak[txn.org], s'.db.peak[txn.org]);
    }
    forall org | org in s'.db.subscriptions ensures OrgOk(s'.db, org) {
      if txn.Recording? && org != txn.org {
        OthersStayWithin(s.db.usage, s'.db.usage[|s.db.usage|], org, s.db.origin[org], s.db.peak[org]);
      }
    }
    forall other | other in s'.txns ensures TxnOk(s', other) {
      assert TxnOk(s, other);
      if Running(s.txns[other]) {
        CommitFrames(s, t, other, s'.db);
      }
    }
  }

  lemma WithinGrows(usage: seq<UsageEvent>, org: OrgId, origin: Option<Period>, peak: nat, peak': nat)
    requires Within(usage, org, origin, peak) && peak <= peak'
    ensures Within(usage, org, origin, peak')
  {
    hide PeriodAt, Governs, Used;
  }

  /** A commit leaves the transactions of other organizations where they were. */
  lemma CommitFrames(s: State, t: TxnId, other: TxnId, db': Db)
    requires Inv(s) && Enabled(s, Commit(t)) && other in s.txns && other != t && Running(s.txns[other])
    requires db' == Do(s, Commit(t)).db && s.txns[other].org in db'.origin && s.txns[other].org in db'.peak
    ensures s.txns[other].org != s.txns[t].org
    ensures PhaseOk(db', s.txns[other])
  {
    hide Ticks, PeriodAt, Governs, Agrees, Within, Contains;
    assert TxnOk(s, t) && TxnOk(s, other);
    var txn := s.txns[other];
    if s.txns[t].Recording? && txn.Recording? && (txn.phase.Checked? || txn.phase.Stamped?) {
      UsedAppend(s.db.usage, db'.usage[|s.db.usage|], txn.org, txn.metric,
                 PeriodAt(s.db.origin[txn.org], txn.phase.checkedAt));
    }
  }

  lemma StepKeeps(s: State, a: Action)
    requires Inv(s) && Enabled(s, a) && KeepsPeriod(s, a)
    ensures Inv(Do(s, a))
  {
    hide Ticks, PeriodAt, Governs, Used, Agrees, Within, PhaseOk, Described, KeepsPeriod;
    var s' := Do(s, a);
    if a.Tick? {
      TickKeeps(s, a.to);
    } else if a.Commit? {
      CommitKeeps(s, a.t);
    } else {
      if IsPhaseStep(a) {
        PhaseStep(s, a);
      } else if a.Lock? {
        LockedIsFine(s, a.t);
      }
      forall t | t in s'.txns ensures TxnOk(s', t) {
        assert t in s.txns ==> TxnOk(s, t);
      }
    }
  }

  lemma LockedIsFine(s: State, t: TxnId)
    requires Inv(s) && Enabled(s, Lock(t))
    ensures PhaseOk(s.db, Do(s, Lock(t)).txns[t])
  {
    hide Ticks, PeriodAt, Governs, Used, Agrees, Within;
  }

  /** Commit, refusal and rollback free the organization and no other; rollback changes no row. */
  lemma EndFreesLocks(s: State, a: Action)
    requires Inv(s) && Enabled(s, a) && (a.Commit? || a.Abort? || a.Check?) && a.t !in Do(s, a).txns
    ensures Do(s, a).txns == s.txns - {a.t}
    ensures var org := s.txns[a.t].org;
      && Do(s, a).locks - {org} == s.locks - {org}
      && (Running(s.txns[a.t]) ==> org !in Do(s, a).locks)
      && (!Running(s.txns[a.t]) && org in s.locks && s.locks[org] != a.t ==> Do(s, a).locks == s.locks)
    ensures !a.Commit? ==> Do(s, a).db == s.db
  {
    hide Ticks, PeriodAt, Governs, Used, Agrees, Within;
    assert TxnOk(s, a.t);
  }

  lemma InitEstablishes(s: State)
    requires Init(s)
    ensures Inv(s)
  {
    hide Ticks, PeriodAt, Governs;
  }

  lemma StepKeysFixed(s: State, a: Action)
    requires Inv(s) && Enabled(s, a)
    ensures Do(s, a).db.origin == s.db.origin
    ensures Do(s, a).db.subscriptions.Keys == s.db.subscriptions.Keys
  {
    hide Ticks, PeriodAt, Governs, Used, Agrees, Within;
    if a.Commit? {
      assert TxnOk(s, a.t);
    }
  }

  lemma {:induction false} RunKeeps(s: State, run: seq<Action>)
    requires Inv(s) && ValidRun(s, run) && PeriodsKept(s, run)
    ensures Inv(After(s, run))
    ensures After(s, run).db.origin == s.db.origin
    ensures After(s, run).db.subscriptions.Keys == s.db.subscriptions.Keys
    decreases |run|
  {
    hide Ticks, PeriodAt, Governs, Used, Inv, KeepsPeriod;
    if run != [] {
      StepKeeps(s, run[0]);
      StepKeysFixed(s, run[0]);
      RunKeeps(Do(s, run[0]), run[1..]);
    }
  }

  /** `quota` belongs to the plan the organization has after the first `i` steps of the run. */
  ghost predicate InForce(s: State, run: seq<Action>, i: nat, org: OrgId, quota: nat) {
    && i <= |run| && ValidRun(s, run[..i])
    && org in After(s, run[..i]).db.subscriptions
    && quota == QuotaOf(PlanOf(After(s, run[..i]).db.subscriptions[org]))
  }

  lemma PeakStep(s: State, a: Action, org: OrgId)
    requires Inv(s) && Enabled(s, a) && org in s.db.subscriptions
    ensures org in s.db.peak && org in Do(s, a).db.peak && org in Do(s, a).db.subscriptions
    ensures Do(s, a).db.peak[org] == s.db.peak[org]
         || Do(s, a).db.peak[org] == QuotaOf(PlanOf(Do(s, a).db.subscriptions[org]))
  {
    hide Ticks, PeriodAt, Governs, Used, Agrees, Within;
    assert OrgOk(s.db, org);
  }

  lemma AfterFirst(s: State, run: seq<Action>, org: OrgId)
    requires run != [] && Enabled(s, run[0]) && org in Do(s, run[0]).db.subscriptions
    ensures InForce(s, run, 1, org, QuotaOf(PlanOf(Do(s, run[0]).db.subscriptions[org])))
  {
    hide Enabled, Do, PlanOf, QuotaOf;
    var first := run[..1];
    assert first[0] == run[0] && first[1..] == [];
    assert ValidRun(Do(s, run[0]), []) && After(Do(s, run[0]), []) == Do(s, run[0]);
    assert ValidRun(s, first) && After(s, first) == Do(s, run[0]);
  }

  lemma ForceShifts(s: State, run: seq<Action>, i: nat, org: OrgId, quota: nat)
    requires run != [] && Enabled(s, run[0]) && InForce(Do(s, run[0]), run[1..], i, org, quota)
    ensures InForce(s, run, i + 1, org, quota)
  {
    hide Enabled, Do, PlanOf, QuotaOf;
    assert run[..i + 1][1..] == run[1..][..i] && run[..i + 1][0] == run[0];
  }

  lemma {:induction false} PeakWasInForce(s: State, run: seq<Action>, org: OrgId)
    requires Inv(s) && ValidRun(s, run) && PeriodsKept(s, run) && org in s.db.subscriptions
    ensures org in s.db.peak && org in After(s, run).db.peak
    ensures || After(s, run).db.peak[org] == s.db.peak[org]
            || exists i: nat :: InForce(s, run, i, org, After(s, run).db.peak[org])
    decreases |run|
  {
    hide Ticks, PeriodAt, Governs, Used, Agrees, Within;
    assert OrgOk(s.db, org);
    if run != [] {
      var s1, rest := Do(s, run[0]), run[1..];
      StepKeeps(s, run[0]);
      StepKeysFixed(s, run[0]);
      PeakWasInForce(s1, rest, org);
      var peak := After(s, run).db.peak[org];
      if i: nat :| InForce(s1, rest, i, org, peak) {
        ForceShifts(s, run, i, org, peak);
      } else if peak != s.db.peak[org] {
        PeakStep(s, run[0], org);
        AfterFirst(s, run, org);
      }
    }
  }

  /** Quota safety: in every interleaving of recordings, plan changes and webhooks that keep the
      period they find, the events dated in any one billing period of the row the organization
      started with sum to at most a quota that has been in force in the run. */
  lemma QuotaSafety(s: State, run: seq<Action>, org: OrgId, metric: string, x: Instant)
    requires Init(s) && ValidRun(s, run) && PeriodsKept(s, run)
    requires org in s.db.subscriptions && Governs(RowOf(s.db.subscriptions[org]), x)
    ensures var used := Used(After(s, run).db.usage, org, metric, PeriodAt(RowOf(s.db.subscriptions[org]), x));
            exists i: nat, quota: nat :: InForce(s, run, i, org, quota) && used <= quota
  {
    hide Ticks, PeriodAt, Governs, Used, Agrees;
    InitEstablishes(s);
    RunKeeps(s, run);
    PeakWasInForce(s, run, org);
    assert OrgOk(After(s, run).db, org);
    var peak := After(s, run).db.peak[org];
    if peak == s.db.peak[org] {
      assert InForce(s, run, 0, org, peak);
    }
  }

  /** Plan changes never shift a billing period: after any run whose webhooks do not, the stored row
      bills every later instant exactly as the row the organization started with. */
  lemma PlanChangesKeepPeriods(s: State, run: seq<Action>, org: OrgId, x: Instant)
    requires Init(s) && ValidRun(s, run) && PeriodsKept(s, run) && org in s.db.subscriptions
    requires Ticks(After(s, run).db.clock) <= Ticks(x)
    ensures org in After(s, run).db.subscriptions
    ensures PeriodAt(RowOf(After(s, run).db.subscriptions[org]), x) == PeriodAt(RowOf(s.db.subscriptions[org]), x)
  {
    hide Ticks, PeriodAt, Governs, Used, Within;
    InitEstablishes(s);
    RunKeeps(s, run);
    assert OrgOk(After(s, run).db, org);
  }

  lemma RunCons(s: State, a: Action, rest: seq<Action>)
    ensures ValidRun(s, [a] + rest) <==> Enabled(s, a) && ValidRun(Do(s, a), rest)
    ensures ValidRun(s, [a] + rest) ==> After(s, [a] + rest) == After(Do(s, a), rest)
  {
    hide Enabled, Do;
    assert ([a] + rest)[1..] == rest;
  }

  lemma EmptyRun(s: State)
    ensures ValidRun(s, []) && After(s, []) == s
  {
  }

  /** The recording transaction at a phase, holding its lock. */
  function RecordingAt(s: State, t: TxnId, org: OrgId, metric: string, quantity: int, phase: RecordPhase): State {
    s.(locks := s.locks[org := t], txns := s.txns[t := Recording(org, metric, quantity, phase)])
  }

  /** Units a month; without a subscription, those of FREE. */
  function MonthlyLimit(sub: Option<Subscription>): int {
    match sub
    case Some(Subscription(Pro, _)) => 50_000
    case Some(Subscription(Business, _)) => 500_000
    case _ => 1_000
  }

  predicate Fits(db: Db, org: OrgId, metric: string, quantity: int)
    requires org in db.subscriptions
  {
    var sub := db.subscriptions[org];
    var row := if sub.Some? then Some(sub.value.period) else None;
    Used(db.usage, org, metric, PeriodAt(row, db.clock)) + quantity <= MonthlyLimit(sub)
  }

  lemma RecordingLocks(s: State, t: TxnId, org: OrgId, metric: string, quantity: int)
    requires t !in s.txns && org in s.db.subscriptions && org !in s.locks && quantity >= 1
    ensures var a := Begin(t, Recording(org, metric, quantity, Waiting));
      && Enabled(s, a) && Enabled(Do(s, a), Lock(t))
      && Do(Do(s, a), Lock(t)) == RecordingAt(s, t, org, metric, quantity, Locked)
  {
    hide Used, PeriodAt, Ticks;
  }

  lemma RecordingChecks(s: State, t: TxnId, org: OrgId, metric: string, quantity: int)
    requires org in s.db.subscriptions
    ensures var held := RecordingAt(s, t, org, metric, quantity, Locked);
      && Enabled(held, Check(t))
      && (Fits(s.db, org, metric, quantity) ==>
            Do(held, Check(t)) == RecordingAt(s, t, org, metric, quantity, Checked(s.db.clock)))
      && (!Fits(s.db, org, metric, quantity) ==> !Enabled(Do(held, Check(t)), Stamp(t)))
  {
    hide Used, PeriodAt, Ticks;
  }

  lemma RecordingCommits(s: State, t: TxnId, org: OrgId, metric: string, quantity: int)
    requires t !in s.txns && org !in s.locks
    ensures var checked := RecordingAt(s, t, org, metric, quantity, Checked(s.db.clock));
      && Enabled(checked, Stamp(t)) && Enabled(Do(checked, Stamp(t)), Commit(t))
      && Do(Do(checked, Stamp(t)), Commit(t)) == Recorded(s, org, metric, quantity)
  {
    hide Used, PeriodAt, Ticks;
    assert s.locks[org := t] - {org} == s.locks;
  }

  function Recorded(s: State, org: OrgId, metric: string, quantity: int): State {
    s.(db := s.db.(usage := s.db.usage + [UsageEvent(org, metric, quantity, s.db.clock)]))
  }

  function RecordingRun(t: TxnId, org: OrgId, metric: string, quantity: int): seq<Action> {
    [Begin(t, Recording(org, metric, quantity, Waiting))]
    + ([Lock(t)] + ([Check(t)] + ([Stamp(t)] + ([Commit(t)] + []))))
  }

  /** Undisturbed at a standing clock, a recording goes through if and only if it fits what the
      plan in force leaves of the current period, and it then adds exactly its event. */
  lemma RecordingSucceedsIff(s: State, t: TxnId, org: OrgId, metric: string, quantity: int)
    requires t !in s.txns && org in s.db.subscriptions && org !in s.locks && quantity >= 1
    ensures var run := RecordingRun(t, org, metric, quantity);
      && (ValidRun(s, run) <==> Fits(s.db, org, metric, quantity))
      && (ValidRun(s, run) ==> After(s, run) == Recorded(s, org, metric, quantity))
  {
    hide Enabled, Do, ValidRun, After, Fits;
    var a, b, c, d, e := Begin(t, Recording(org, metric, quantity, Waiting)), Lock(t), Check(t), Stamp(t), Commit(t);
    RecordingLocks(s, t, org, metric, quantity);
    RecordingChecks(s, t, org, metric, quantity);
    RecordingCommits(s, t, org, metric, quantity);
    var held := RecordingAt(s, t, org, metric, quantity, Locked);
    RunCons(s, a, [b] + ([c] + ([d] + ([e] + []))));
    RunCons(Do(s, a), b, [c] + ([d] + ([e] + [])));
    RunCons(held, c, [d] + ([e] + []));
    RunCons(Do(held, c), d, [e] + []);
    if Fits(s.db, org, metric, quantity) {
      RunCons(Do(Do(held, c), d), e, []);
      EmptyRun(Do(Do(Do(held, c), d), e));
    }
  }

  /** When the clock advances between check and insert, the check still decides by the earlier reading,
      and the event is dated by the later one. */
  lemma LateRecording(s: State, t: TxnId, org: OrgId, metric: string, quantity: int, to: Instant)
    requires t !in s.txns && org in s.db.subscriptions && org !in s.locks && quantity >= 1
    requires Ticks(s.db.clock) <= Ticks(to)
    ensures var run := [Begin(t, Recording(org, metric, quantity, Waiting))]
        + ([Lock(t)] + ([Check(t)] + ([Tick(to)] + ([Stamp(t)] + ([Commit(t)] + [])))));
      && (ValidRun(s, run) <==> Fits(s.db, org, metric, quantity))
      && (ValidRun(s, run) ==> After(s, run) == Recorded(s.(db := s.db.(clock := to)), org, metric, quantity))
  {
    hide Enabled, Do, ValidRun, After, Fits, Ticks;
    var a, b, c, d, e := Begin(t, Recording(org, metric, quantity, Waiting)), Lock(t), Check(t), Stamp(t), Commit(t);
    RecordingLocks(s, t, org, metric, quantity);
    RecordingChecks(s, t, org, metric, quantity);
    LateCommits(s, t, org, metric, quantity, to);
    var held := RecordingAt(s, t, org, metric, quantity, Locked);
    RunCons(s, a, [b] + ([c] + ([Tick(to)] + ([d] + ([e] + [])))));
    RunCons(Do(s, a), b, [c] + ([Tick(to)] + ([d] + ([e] + []))));
    RunCons(held, c, [Tick(to)] + ([d] + ([e] + [])));
    RunCons(Do(held, c), Tick(to), [d] + ([e] + []));
    if Enabled(Do(held, c), Tick(to)) {
      RunCons(Do(Do(held, c), Tick(to)), d, [e] + []);
      if Fits(s.db, org, metric, quantity) {
        var late := Do(Do(held, c), Tick(to));
        RunCons(Do(late, d), e, []);
        EmptyRun(Do(Do(late, d), e));
      }
    }
  }

  lemma LateCommits(s: State, t: TxnId, org: OrgId, metric: string, quantity: int, to: Instant)
    requires t !in s.txns && org in s.db.subscriptions && org !in s.locks && Ticks(s.db.clock) <= Ticks(to)
    ensures var checked := RecordingAt(s, t, org, metric, quantity, Checked(s.db.clock));
      && Enabled(checked, Tick(to)) && Enabled(Do(checked, Tick(to)), Stamp(t))
      && Enabled(Do(Do(checked, Tick(to)), Stamp(t)), Commit(t))
      && Do(Do(Do(checked, Tick(to)), Stamp(t)), Commit(t))
           == Recorded(s.(db := s.db.(clock := to)), org, metric, quantity)
    ensures var held := RecordingAt(s, t, org, metric, quantity, Locked);
      Enabled(held, Check(t)) && !Fits(s.db, org, metric, quantity) ==>
        Enabled(Do(held, Check(t)), Tick(to)) ==> !Enabled(Do(Do(held, Check(t)), Tick(to)), Stamp(t))
  {
    hide Used, PeriodAt, Ticks;
    assert s.locks[org := t] - {org} == s.locks;
  }

  /** Undisturbed at a standing clock, a plan change goes through: the plan becomes the given one,
      and the stored period becomes the period in force, for a missing row the calendar month. */
  lemma ChangeTakesEffect(s: State, t: TxnId, org: OrgId, plan: Plan)
    requires t !in s.txns && org in s.db.subscriptions && org !in s.locks
    ensures var run := [Begin(t, Changing(org, plan, Queued))]
        + ([Lock(t)] + ([Load(t)] + ([RollPeriod(t)] + ([Commit(t)] + []))));
      && ValidRun(s, run)
      && After(s, run).db.usage == s.db.usage
      && After(s, run).db.subscriptions ==
           s.db.subscriptions[org := Some(Subscription(plan, PeriodAt(RowOf(s.db.subscriptions[org]), s.db.clock)))]
  {
    hide Ticks, PeriodAt, Used;
    var a, b, c, d, e := Begin(t, Changing(org, plan, Queued)), Lock(t), Load(t), RollPeriod(t), Commit(t);
    assert Enabled(s, a);
    var s1 := Do(s, a);
    assert Enabled(s1, b);
    var s2 := Do(s1, b);
    assert Enabled(s2, c);
    var s3 := Do(s2, c);
    assert Enabled(s3, d);
    var s4 := Do(s3, d);
    assert Enabled(s4, e);
    RollOfLoaded(s.db.subscriptions[org], s.db.clock);
    hide Enabled, ValidRun, After;
    RunCons(s4, e, []);
    RunCons(s3, d, [e] + []);
    RunCons(s2, c, [d] + ([e] + []));
    RunCons(s1, b, [c] + ([d] + ([e] + [])));
    RunCons(s, a, [b] + ([c] + ([d] + ([e] + []))));
    EmptyRun(Do(s4, e));
  }

  lemma RollOfLoaded(sub: Option<Subscription>, now: Instant)
    ensures var row := if sub.Some? then sub.value.period else CalendarPeriod(now);
      PeriodAt(Some(row), now) == PeriodAt(RowOf(sub), now)
  {
    hide Ticks;
    RollingIsPathIndependent(None, now, now);
  }

  // ----- Retry-After of a refused recording -----

  /** max(1, int(seconds)): the microseconds left, cut toward zero to whole seconds. */
  function RetryAfter(left: int): int {
    var seconds := if left < 0 then -((-left) / 1_000_000) else left / 1_000_000;
    if seconds < 1 then 1 else seconds
  }

  /** The announced delay: at least a second, and otherwise the whole seconds that are left, so that it
      reaches the end only if no fraction was cut off. */
  lemma DelayReachesEnd(left: int)
    ensures RetryAfter(left) * 1_000_000 >= left <==> left < 1_000_000 || left % 1_000_000 == 0
    ensures left < 1_000_000 ==> RetryAfter(left) == 1
    ensures left >= 1_000_000 ==> RetryAfter(left) * 1_000_000 <= left < (RetryAfter(left) + 1) * 1_000_000
  {
    if left >= 0 {
      assert left == left / 1_000_000 * 1_000_000 + left % 1_000_000;
    }
  }

  /** A later instant is in another period if and only if the present one has ended, for every row,
      one that starts in the future included. */
  lemma LeavesPeriodIff(row: Option<Period>, now: Instant, x: Instant)
    requires Ticks(now) <= Ticks(x)
    ensures PeriodAt(row, x) != PeriodAt(row, now) <==> Ticks(PeriodAt(row, now).end) <= Ticks(x)
  {
    hide Ticks;
    if Governs(row, now) {
      GovernsLater(row, now, x);
      PeriodsPartition(row, now, x);
      PeriodsPartition(row, x, now);
    } else if Governs(row, x) {
      PeriodsPartition(row, x, x);
    }
  }

  /** Of a recording that is refused, in whatever state: it reads the clock again, at `read`, for the
      announced delay. Because the fraction is cut off, an instant that many seconds later is in
      another billing period if and only if less than a second, or a whole number of seconds, was
      left. */
  lemma RetryAfterOutlastsPeriod(s: State, t: TxnId, read: Instant, x: Instant)
    requires Enabled(s, Check(t)) && Refuses(s, t) && Ticks(s.db.clock) <= Ticks(read)
    requires Ticks(x) == Ticks(read) + RetryAfter(Left(s, t, read)) * 1_000_000
    ensures t !in Do(s, Check(t)).txns && Do(s, Check(t)).db == s.db
    ensures var row, left := RowOf(s.db.subscriptions[s.txns[t].org]), Left(s, t, read);
      PeriodAt(row, x) != PeriodAt(row, s.db.clock) <==> left < 1_000_000 || left % 1_000_000 == 0
  {
    RefusalEnds(s, t);
    DelayReachesEnd(Left(s, t, read));
    hide PeriodAt, Used, Ticks, RetryAfter, Enabled, Do, Refuses;
    LeavesPeriodIff(RowOf(s.db.subscriptions[s.txns[t].org]), s.db.clock, x);
  }

  lemma RefusalEnds(s: State, t: TxnId)
    requires Enabled(s, Check(t))
    ensures s.txns[t].org in s.db.subscriptions
    ensures Refuses(s, t) ==> t !in Do(s, Check(t)).txns && Do(s, Check(t)).db == s.db
  {
    hide PeriodAt, Used, Ticks;
  }

  /** The check fails: the period in force has no room for the recording. */
  predicate Refuses(s: State, t: TxnId)
    requires Enabled(s, Check(t))
  {
    !Fits(s.db, s.txns[t].org, s.txns[t].metric, s.txns[t].quantity)
  }

  /** Microseconds from a clock reading to the end of the period the check looked at. */
  function Left(s: State, t: TxnId, read: Instant): int
    requires Enabled(s, Check(t))
  {
    Ticks(PeriodAt(RowOf(s.db.subscriptions[s.txns[t].org]), s.db.clock).end) - Ticks(read)
  }

  // ----- Runs on a FREE organization billed from 1 January 2024 -----

  const January: Period := Period(DateTime(2024, 1, 1, 0), DateTime(2024, 2, 1, 0))
  const Shifted: Period := Period(DateTime(2024, 1, 10, 0), DateTime(2024, 2, 10, 0))
  const Early: Instant := DateTime(2024, 1, 5, 0)
  const Late: Instant := DateTime(2024, 1, 15, 0)
  /** 5.5 and 0.5 seconds before the end of the month. */
  const Closing: Instant := DateTime(2024, 1, 31, 86_394_500_000)
  const Closed: Instant := DateTime(2024, 1, 31, 86_399_500_000)
  const REQUESTS := "api_requests"

  lemma JanuaryTicks()
    ensures Ticks(January.start) < Ticks(Early) < Ticks(Shifted.start) < Ticks(Late)
    ensures Ticks(Late) < Ticks(Closing) < Ticks(Closed) < Ticks(January.end) < Ticks(Shifted.end)
    ensures Ticks(January.end) - Ticks(Closing) == 5_500_000 && Ticks(Closed) - Ticks(Closing) == 5_000_000
  {
    var k := 12 * 2024;
    MonthsAreContiguous(k);
    IndexOfParts(January.start);
    IndexOfParts(January.end);
    hide MonthStart;
    assert MonthIndex(January.end) == k + 1 && MonthIndex(Shifted.end) == k + 1;
    assert LengthAt(k) == 31;
  }

  function FreeOrg(clock: Instant, row: Period, usage: seq<UsageEvent>): State {
    State(Db(clock, map[0 := Some(Subscription(Free, row))], usage, map[0 := Some(January)], map[0 := QuotaOf(Free)]),
      map[], map[])
  }

  /** A recording of a full quota on 5 January. */
  const First: UsageEvent := UsageEvent(0, REQUESTS, QuotaOf(Free), Early)

  lemma FirstQuotaFits()
    ensures var s, run := FreeOrg(Early, January, []), RecordingRun(1, 0, REQUESTS, QuotaOf(Free));
      Init(s) && ValidRun(s, run) && After(s, run) == FreeOrg(Early, January, [First])
  {
    JanuaryTicks();
    hide Ticks, PeriodAt, ValidRun, After;
    var s := FreeOrg(Early, January, []);
    RecordingSucceedsIff(s, 1, 0, REQUESTS, QuotaOf(Free));
    assert [] + [First] == [First];
  }

  lemma {:induction false} RunConcat(s: State, run: seq<Action>, more: seq<Action>)
    requires ValidRun(s, run)
    ensures ValidRun(s, run + more) <==> ValidRun(After(s, run), more)
    ensures ValidRun(s, run + more) ==> After(s, run + more) == After(After(s, run), more)
    decreases |run|
  {
    hide Enabled, Do;
    if run == [] {
      assert run + more == more;
    } else {
      assert (run + more)[1..] == run[1..] + more;
      RunConcat(Do(s, run[0]), run[1..], more);
    }
  }

  lemma TickRun(s: State, to: Instant, more: seq<Action>)
    requires Ticks(s.db.clock) <= Ticks(to)
    ensures ValidRun(s, [Tick(to)] + more) <==> ValidRun(s.(db := s.db.(clock := to)), more)
    ensures ValidRun(s, [Tick(to)] + more) ==> After(s, [Tick(to)] + more) == After(s.(db := s.db.(clock := to)), more)
  {
    hide Ticks, ValidRun, After;
    RunCons(s, Tick(to), more);
  }

  function ClosingRun(): seq<Action> {
    RecordingRun(1, 0, REQUESTS, QuotaOf(Free))
    + ([Tick(Closing)] + ([Begin(2, Recording(0, REQUESTS, 1, Waiting))] + ([Lock(2)] + [])))
  }

  /** The second recording, about to check the quota. */
  function AboutToCheck(): State {
    RecordingAt(FreeOrg(Closing, January, [First]), 2, 0, REQUESTS, 1, Locked)
  }

  lemma ClosingRunEnds()
    ensures var s := FreeOrg(Early, January, []);
      ValidRun(s, ClosingRun()) && After(s, ClosingRun()) == AboutToCheck()
  {
    JanuaryTicks();
    FirstQuotaFits();
    var s2, b, c := FreeOrg(Closing, January, [First]), Begin(2, Recording(0, REQUESTS, 1, Waiting)), Lock(2);
    RecordingLocks(s2, 2, 0, REQUESTS, 1);
    hide Ticks, ValidRun, After, RecordingRun, Used, Enabled, Do, Init;
    RunConcat(FreeOrg(Early, January, []), RecordingRun(1, 0, REQUESTS, QuotaOf(Free)),
      [Tick(Closing)] + ([b] + ([c] + [])));
    TickRun(FreeOrg(Early, January, [First]), Closing, [b] + ([c] + []));
    RunCons(s2, b, [c] + []);
    RunCons(Do(s2, b), c, []);
    EmptyRun(Do(Do(s2, b), c));
  }

  lemma ClosingIsFull()
    ensures !Fits(FreeOrg(Closing, January, [First]).db, 0, REQUESTS, 1)
    ensures PeriodAt(Some(January), Closing) == January && PeriodAt(Some(January), Closed) == January
  {
    JanuaryTicks();
    hide Ticks;
    UsedAppend([], First, 0, REQUESTS, January);
    assert [] + [First] == [First];
  }

  /** A delay that falls short. The quota is used up, and another recording is checked 5.5 seconds
      before the end of the month: it is refused with a delay of 5 seconds, after which the same
      period is still in force. */
  lemma RetryAfterFallsShort()
    ensures var s0 := FreeOrg(Early, January, []);
      Init(s0) && ValidRun(s0, ClosingRun()) && After(s0, ClosingRun()) == AboutToCheck()
    ensures var s := AboutToCheck();
      && s.db.clock == Closing && s.db.subscriptions == map[0 := Some(Subscription(Free, January))]
      && Enabled(s, Check(2)) && Refuses(s, 2)
      && Left(s, 2, Closing) == 5_500_000 && RetryAfter(Left(s, 2, Closing)) == 5
      && Ticks(Closed) == Ticks(Closing) + RetryAfter(Left(s, 2, Closing)) * 1_000_000
      && PeriodAt(Some(January), Closed) == PeriodAt(Some(January), Closing)
  {
    FirstQuotaFits();
    ClosingRunEnds();
    ClosingIsFull();
    JanuaryTicks();
    hide Ticks, ValidRun, After, PeriodAt, Init, ClosingRun, Fits;
  }

  // ----- Undisturbed webhooks, and why they must keep the period -----

  function WebhookRun(t: TxnId, org: OrgId, describes: Option<Description>): seq<Action> {
    [Begin(t, Webhook(org, describes, Asked))] + ([Lock(t)] + ([Open(t)] + ([Price(t)] + ([Commit(t)] + []))))
  }

  /** The webhook transaction at a phase, holding its lock. */
  function WebhookAt(s: State, t: TxnId, org: OrgId, describes: Option<Description>, hook: HookPhase): State {
    s.(locks := s.locks[org := t], txns := s.txns[t := Webhook(org, describes, hook)])
  }

  function FoundBy(s: State, org: OrgId): Subscription
    requires org in s.db.subscriptions
  {
    var sub := s.db.subscriptions[org];
    if sub.Some? then sub.value else Subscription(Free, CalendarPeriod(s.db.clock))
  }

  lemma WebhookOpens(s: State, t: TxnId, org: OrgId, describes: Option<Description>)
    requires t !in s.txns && org in s.db.subscriptions && org !in s.locks
    ensures var a := Begin(t, Webhook(org, describes, Asked));
      && Enabled(s, a) && Enabled(Do(s, a), Lock(t)) && Enabled(Do(Do(s, a), Lock(t)), Open(t))
      && Do(Do(Do(s, a), Lock(t)), Open(t)) == WebhookAt(s, t, org, describes, Opened(FoundBy(s, org)))
  {
    hide Ticks, CalendarPeriod;
  }

  lemma WebhookCommits(s: State, t: TxnId, org: OrgId, describes: Option<Description>, found: Subscription)
    requires t !in s.txns && org !in s.locks
    ensures var open, sub := WebhookAt(s, t, org, describes, Opened(found)), Described(found, describes, s.db.clock);
      && (Enabled(open, Price(t)) <==> describes.Some? ==> Ordered(sub.period))
      && (Enabled(open, Price(t)) ==>
            && Enabled(Do(open, Price(t)), Commit(t))
            && Do(Do(open, Price(t)), Commit(t)) == s.(db := Stored(s.db, org, sub)))
  {
    hide Ticks, Described;
    assert s.locks[org := t] - {org} == s.locks;
  }

  lemma WebhookRuns(s: State, t: TxnId, org: OrgId, describes: Option<Description>)
    requires t !in s.txns && org in s.db.subscriptions && org !in s.locks
    ensures var run, sub := WebhookRun(t, org, describes), Described(FoundBy(s, org), describes, s.db.clock);
      && (ValidRun(s, run) <==> describes.Some? ==> Ordered(sub.period))
      && (ValidRun(s, run) ==> After(s, run) == s.(db := Stored(s.db, org, sub)))
  {
    hide Enabled, Do, ValidRun, After, Described, FoundBy, Ordered;
    var a, b, c, d, e := Begin(t, Webhook(org, describes, Asked)), Lock(t), Open(t), Price(t), Commit(t);
    WebhookOpens(s, t, org, describes);
    WebhookCommits(s, t, org, describes, FoundBy(s, org));
    var open := WebhookAt(s, t, org, describes, Opened(FoundBy(s, org)));
    RunCons(s, a, [b] + ([c] + ([d] + ([e] + []))));
    RunCons(Do(s, a), b, [c] + ([d] + ([e] + [])));
    RunCons(Do(Do(s, a), b), c, [d] + ([e] + []));
    RunCons(open, d, [e] + []);
    if Enabled(open, d) {
      RunCons(Do(open, d), e, []);
      EmptyRun(Do(Do(open, d), e));
    }
  }

  /** Undisturbed at a standing clock, a webhook goes through unless it describes a period that runs
      backward. A description stores its plan and exactly its period; without one the subscription
      stays as it is, and a missing one is created, FREE and for the present month. */
  lemma WebhookTakesEffectIff(s: State, t: TxnId, org: OrgId, describes: Option<Description>)
    requires t !in s.txns && org in s.db.subscriptions && org !in s.locks
    ensures var run, now := WebhookRun(t, org, describes), s.db.clock;
      && (ValidRun(s, run) <==> describes.Some? ==> !Backward(describes.value.start, describes.value.end, now))
      && (ValidRun(s, run) ==>
            var s' := After(s, run);
            && s'.locks == s.locks && s'.txns == s.txns && s'.db.clock == now && s'.db.usage == s.db.usage
            && org in s'.db.subscriptions && s'.db.subscriptions - {org} == s.db.subscriptions - {org}
            && s'.db.subscriptions[org].Some?
            && var stored, before := s'.db.subscriptions[org].value, s.db.subscriptions[org];
               match describes
               case Some(d) => stored.plan == d.plan && IsDescribed(stored.period, d.start, d.end, now)
               case None =>
                 if before.Some? then stored == before.value
                 else stored.plan == Free && IsDescribed(stored.period, None, None, now))
  {
    hide ValidRun, After, WebhookRun, CalendarPeriod, Backward, IsDescribed, DescribedPeriod, Ordered;
    WebhookRuns(s, t, org, describes);
    if describes.Some? {
      DescribedPeriodMeaning(describes.value.start, describes.value.end, s.db.clock);
    } else if s.db.subscriptions[org].None? {
      CreatedForTheMonth(s.db.clock);
    }
    var sub := Described(FoundBy(s, org), describes, s.db.clock);
    assert s.db.subscriptions[org := Some(sub)] - {org} == s.db.subscriptions - {org};
  }

  lemma CreatedForTheMonth(now: Instant)
    ensures IsDescribed(CalendarPeriod(now), None, None, now)
  {
    DescribedPeriodMeaning(None, None, now);
  }

  predicate FreeTxn(txn: Txn) {
    match txn
    case Recording(_, _, _, _) => true
    case Changing(_, plan, _) => plan == Free
    case Webhook(_, describes, hook) =>
      && (describes.Some? ==> describes.value.plan == Free)
      && (hook.Opened? || hook.Priced? ==> hook.sub.plan == Free)
  }

  /** No other plan than FREE, stored or about to be. */
  predicate AllFree(s: State) {
    && (forall org | org in s.db.subscriptions :: PlanOf(s.db.subscriptions[org]) == Free)
    && forall t | t in s.txns :: FreeTxn(s.txns[t])
  }

  lemma FreeStep(s: State, a: Action)
    requires AllFree(s) && Enabled(s, a) && (a.Begin? ==> FreeTxn(a.txn))
    ensures AllFree(Do(s, a))
  {
    hide Ticks, PeriodAt, Used, CalendarPeriod, Ordered, DescribedPeriod;
    if !a.Tick? && a.t in s.txns {
      assert FreeTxn(s.txns[a.t]);
    }
  }

  lemma {:induction false} FreeRun(s: State, run: seq<Action>)
    requires AllFree(s) && ValidRun(s, run) && forall a | a in run :: a.Begin? ==> FreeTxn(a.txn)
    ensures AllFree(After(s, run))
    decreases |run|
  {
    hide Enabled, Do, AllFree, FreeTxn;
    if run != [] {
      FreeStep(s, run[0]);
      FreeRun(Do(s, run[0]), run[1..]);
    }
  }

  const Moving: Description := Description(Free, Some(Shifted.start), Some(Shifted.end))

  /** A quota is used up on 5 January, a webhook moves the stored period to 10 January, and another
      full quota is recorded on 15 January. */
  function EscapingRun(): seq<Action> {
    RecordingRun(1, 0, REQUESTS, QuotaOf(Free)) + (WebhookRun(2, 0, Some(Moving))
      + ([Tick(Late)] + RecordingRun(3, 0, REQUESTS, QuotaOf(Free))))
  }

  lemma MovedThenRecorded()
    ensures var s, second := FreeOrg(Early, January, [First]), First.(at := Late);
      var run := WebhookRun(2, 0, Some(Moving)) + ([Tick(Late)] + RecordingRun(3, 0, REQUESTS, QuotaOf(Free)));
      ValidRun(s, run) && After(s, run) == FreeOrg(Late, Shifted, [First] + [second])
  {
    JanuaryTicks();
    hide Ticks, ValidRun, After, Enabled, Do, WebhookRun, RecordingRun;
    var s, moved := FreeOrg(Early, January, [First]), FreeOrg(Early, Shifted, [First]);
    var late := FreeOrg(Late, Shifted, [First]);
    WebhookRuns(s, 2, 0, Some(Moving));
    assert s.db.subscriptions[0 := Some(Subscription(Free, Shifted))] == moved.db.subscriptions;
    assert s.db.peak[0 := QuotaOf(Free)] == s.db.peak;
    RunConcat(s, WebhookRun(2, 0, Some(Moving)), [Tick(Late)] + RecordingRun(3, 0, REQUESTS, QuotaOf(Free)));
    TickRun(moved, Late, RecordingRun(3, 0, REQUESTS, QuotaOf(Free)));
    UsedAppend([], First, 0, REQUESTS, Shifted);
    assert [] + [First] == [First];
    assert PeriodAt(Some(Shifted), Late) == Shifted;
    RecordingSucceedsIff(late, 3, 0, REQUESTS, QuotaOf(Free));
  }

  lemma EscapingRunEnds()
    ensures var s := FreeOrg(Early, January, []);
      ValidRun(s, EscapingRun()) && After(s, EscapingRun()) == FreeOrg(Late, Shifted, [First] + [First.(at := Late)])
  {
    FirstQuotaFits();
    MovedThenRecorded();
    hide Ticks, ValidRun, After, RecordingRun, WebhookRun, Init;
    RunConcat(FreeOrg(Early, January, []), RecordingRun(1, 0, REQUESTS, QuotaOf(Free)),
      WebhookRun(2, 0, Some(Moving)) + ([Tick(Late)] + RecordingRun(3, 0, REQUESTS, QuotaOf(Free))));
  }

  lemma JanuaryHoldsTwice()
    ensures PeriodAt(Some(January), Late) == January
    ensures Used([First] + [First.(at := Late)], 0, REQUESTS, January) == 2 * QuotaOf(Free)
  {
    JanuaryTicks();
    hide Ticks;
    UsedAppend([], First, 0, REQUESTS, January);
    UsedAppend([First], First.(at := Late), 0, REQUESTS, January);
    assert [] + [First] == [First];
  }

  lemma EscapingRunIsFree()
    ensures AllFree(FreeOrg(Early, January, []))
    ensures forall a | a in EscapingRun() :: a.Begin? ==> FreeTxn(a.txn)
  {
  }

  /** The condition on webhooks cannot be dropped: in this run of a FREE organization the events of
      January sum to twice the only quota that is ever in force. */
  lemma MovedPeriodEscapesQuota()
    ensures var s, run := FreeOrg(Early, January, []), EscapingRun();
      && Init(s) && ValidRun(s, run) && PeriodAt(Some(January), Late) == January
      && Used(After(s, run).db.usage, 0, REQUESTS, January) == 2 * QuotaOf(Free)
      && forall i: nat, quota: nat :: InForce(s, run, i, 0, quota) ==> quota == QuotaOf(Free)
  {
    FirstQuotaFits();
    EscapingRunEnds();
    JanuaryHoldsTwice();
    EscapingRunIsFree();
    hide Ticks, ValidRun, After, Used, PeriodAt, Init, EscapingRun;
    var s, run := FreeOrg(Early, January, []), EscapingRun();
    forall i: nat, quota: nat | InForce(s, run, i, 0, quota) ensures quota == QuotaOf(Free) {
      FreeRun(s, run[..i]);
    }
  }
}
