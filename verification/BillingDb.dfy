/** The billing tables and every transaction that touches them, interleaved at the granularity of
    row locks and unique keys: storing a webhook event, applying it, marking it failed, changing a
    plan, creating and deleting an organization. A transaction may abort at any point. */
module BillingDb {
  import opened BillingPeriods
  import opened Calendar
  import opened Options
  import opened Plans

  type OrgId = nat
  type EventId = string
  type TxnId = nat

  datatype Status = Active | PastDue | Canceled
  datatype Subscription = Subscription(
    plan: Plan, status: Status, customer: Option<string>, external: Option<string>, period: Period)

  datatype Kind = Created | Updated | Cancelled | PaymentFailed

  /** `data.object` of a webhook; `None` is a field left out, `Some(None)` an explicit null. */
  datatype Details = Details(
    org: OrgId, plan: Plan, status: Option<Status>,
    customer: Option<Option<string>>, external: Option<Option<string>>,
    start: Option<Instant>, end: Option<Instant>)

  datatype EventStatus = Pending | Processed | Failed
  datatype EventRow = EventRow(externalId: string, kind: Kind, details: Details, status: EventStatus)

  /** The history of committed changes to subscriptions. `openedAt` is the clock reading for a
      subscription created on the way, `now` the one for the change itself. */
  datatype Change =
    | Opened(org: OrgId, now: Instant)
    | Applied(
        org: OrgId, event: EventId, kind: Kind, details: Details, openedAt: Instant, now: Instant, from: Plan, to: Plan)
    | Replanned(org: OrgId, to: Plan, openedAt: Instant, now: Instant, from: Plan)

  /** `known` are the organization ids ever used; `log` is history that no step reads. */
  datatype Db = Db(
    known: set<OrgId>, orgs: set<OrgId>,
    subscriptions: map<OrgId, Subscription>, events: map<EventId, EventRow>,
    log: seq<Change>)

  datatype Txn =
    | Storing(externalId: string, kind: Kind, details: Details, store: StorePhase)
    | Processing(event: EventId, process: ProcessPhase)
    | Marking(event: EventId, found: Option<EventRow>)
    | Planning(org: OrgId, plan: Plan, loaded: Option<Loaded>)
    | Deleting(org: OrgId, locked: bool)

  datatype Loaded = Loaded(sub: Subscription, openedAt: Instant)
  datatype StorePhase = Asking | Missing | Inserted(id: EventId) | Stored(id: EventId, seen: EventStatus, created: bool)
  datatype ProcessPhase = Waiting | HasEvent(row: EventRow) | HasSub(row: EventRow, read: Loaded) | Done

  datatype Resource = EventLock(id: EventId) | OrgLock(org: OrgId) | KeyLock(externalId: string)

  datatype State = State(db: Db, locks: map<Resource, TxnId>, txns: map<TxnId, Txn>)

  datatype Action =
    | CreateOrg(org: OrgId, now: Instant)
    | Begin(t: TxnId, txn: Txn)
    | Lookup(t: TxnId, id: EventId)
    | LookupMissing(t: TxnId)
    | Insert(t: TxnId, id: EventId)
    | LockEvent(t: TxnId)
    | LockOrg(t: TxnId, now: Instant)
    | Commit(t: TxnId, now: Instant)
    | End(t: TxnId)

  // ----- The changes themselves -----

  function DefaultSubscription(now: Instant): Subscription {
    Subscription(Free, Active, None, None, CalendarPeriod(now))
  }

  function OrDefault(sub: Option<Subscription>, now: Instant): Subscription {
    if sub.Some? then sub.value else DefaultSubscription(now)
  }

  function Or<T>(value: Option<T>, fallback: T): T {
    if value.Some? then value.value else fallback
  }

  function NamedPeriod(d: Details, now: Instant): Period {
    DescribedPeriod(d.start, d.end, now)
  }

  /** What a webhook does to a subscription; `None` where processing raises. */
  function Apply(sub: Subscription, kind: Kind, d: Details, now: Instant): Option<Subscription> {
    match kind
    case Cancelled => Some(sub.(status := Canceled))
    case PaymentFailed => Some(sub.(status := PastDue))
    case _ =>
      var period := NamedPeriod(d, now);
      if !Ordered(period) then None
      else Some(Subscription(
        d.plan, Or(d.status, Active), Or(d.customer, sub.customer), Or(d.external, sub.external), period))
  }

  predicate IsDescription(kind: Kind) {
    kind == Created || kind == Updated
  }

  /** What events mean, on any two subscriptions. Whether processing raises is up to the event alone,
      and status events never raise. A description overwrites: subscriptions that differ at most in
      ids it mentions come out equal, with an ordered period, the calendar month if it names none.
      Other events change the status alone. The last of several status events wins, a description
      drops every status before it, and a repeated event changes nothing. */
  lemma EventMeaning(sub: Subscription, other: Subscription, kind: Kind, d: Details, now: Instant,
                     kind': Kind, d': Details, now': Instant)
    ensures var result, result' := Apply(sub, kind, d, now), Apply(other, kind, d, now);
      && (result.Some? <==> result'.Some?)
      && (!IsDescription(kind) ==> result.Some? && result.value.(status := sub.status) == sub)
      && (IsDescription(kind) && result.Some? ==>
        && Ordered(result.value.period) && result.value.period == result'.value.period
        && (d.start.None? && d.end.None? ==> result.value.period == CalendarPeriod(now))
        && ((d.customer.Some? || sub.customer == other.customer) && (d.external.Some? || sub.external == other.external)
            ==> result == result'))
      && (result.Some? ==>
        && Apply(result.value, kind, d, now) == result
        && (!IsDescription(kind') && !IsDescription(kind) ==>
              Apply(result.value, kind', d', now') == Apply(sub, kind', d', now'))
        && (!IsDescription(kind') && IsDescription(kind) ==>
              Apply(Or(Apply(sub, kind', d', now'), sub), kind, d, now) == result))
  {
    hide Ticks;
  }

  /** One event, field by field. A description is refused if and only if the boundaries it gives run
      backward, and otherwise stored as given. */
  lemma ApplyMeaning(sub: Subscription, kind: Kind, d: Details, now: Instant)
    ensures kind == Cancelled ==> Apply(sub, kind, d, now) == Some(sub.(status := Canceled))
    ensures kind == PaymentFailed ==> Apply(sub, kind, d, now) == Some(sub.(status := PastDue))
    ensures kind == Created || kind == Updated ==>
      var result := Apply(sub, kind, d, now);
      && (result.None? <==> Backward(d.start, d.end, now))
      && (result.Some? ==>
        && IsDescribed(result.value.period, d.start, d.end, now)
        && result.value.plan == d.plan
        && result.value.status == (match d.status case Some(status) => status case None => Active)
        && result.value.customer == (match d.customer case Some(id) => id case None => sub.customer)
        && result.value.external == (match d.external case Some(id) => id case None => sub.external))
  {
    hide Ordered, Backward, IsDescribed, DescribedPeriod;
    DescribedPeriodMeaning(d.start, d.end, now);
  }

  /** What `change_plan` does to a subscription. */
  function Replan(sub: Subscription, plan: Plan, now: Instant): Subscription {
    sub.(plan := plan, status := Active, period := PeriodAt(Some(sub.period), now))
  }

  /** A plan change sets plan and status, keeps the external ids, and bills every later instant
      as the subscription did before. */
  lemma PlanChangeMeaning(sub: Subscription, plan: Plan, now: Instant, x: Instant)
    requires Ticks(now) <= Ticks(x)
    ensures var changed := Replan(sub, plan, now);
      && changed.plan == plan && changed.status == Active
      && changed.customer == sub.customer && changed.external == sub.external
      && PeriodAt(Some(changed.period), x) == PeriodAt(Some(sub.period), x)
  {
    hide Ticks, PeriodAt;
    RollingIsPathIndependent(Some(sub.period), now, x);
  }

  function SubOf(db: Db, org: OrgId): Option<Subscription> {
    if org in db.subscriptions then Some(db.subscriptions[org]) else None
  }

  // ----- Steps -----

  /** A transaction as a request starts it, holding nothing. */
  predicate Fresh(txn: Txn) {
    match txn
    case Storing(_, _, _, store) => store.Asking?
    case Processing(_, process) => process.Waiting?
    case Marking(_, found) => found.None?
    case Planning(_, _, loaded) => loaded.None?
    case Deleting(_, locked) => !locked
  }

  predicate Enabled(s: State, a: Action) {
    match a
    case CreateOrg(org, _) => org !in s.db.known
    case Begin(t, txn) => t !in s.txns && Fresh(txn)
    case Lookup(t, id) =>
      && t in s.txns && s.txns[t].Storing? && (s.txns[t].store.Asking? || s.txns[t].store.Missing?)
      && id in s.db.events && s.db.events[id].externalId == s.txns[t].externalId
    case LookupMissing(t) =>
      && t in s.txns && s.txns[t].Storing? && s.txns[t].store.Asking?
      && forall id | id in s.db.events :: s.db.events[id].externalId != s.txns[t].externalId
    case Insert(t, id) =>
      // The unique index makes a second inserter of the same key wait for the first.
      && t in s.txns && s.txns[t].Storing? && s.txns[t].store.Missing?
      && KeyLock(s.txns[t].externalId) !in s.locks
      && forall id | id in s.db.events :: s.db.events[id].externalId != s.txns[t].externalId
    case LockEvent(t) =>
      && t in s.txns && Fresh(s.txns[t]) && (s.txns[t].Processing? || s.txns[t].Marking?)
      && s.txns[t].event in s.db.events && EventLock(s.txns[t].event) !in s.locks
    case LockOrg(t, _) =>
      && t in s.txns
      && (match s.txns[t]
          case Processing(_, HasEvent(row)) => !row.status.Processed? && CanLockOrg(s, row.details.org)
          case Planning(org, _, None) => CanLockOrg(s, org)
          case Deleting(org, false) => CanLockOrg(s, org)
          case _ => false)
    case Commit(t, now) =>
      && t in s.txns
      && (match s.txns[t]
          case Storing(_, _, _, Inserted(id)) => id !in s.db.events
          case Processing(_, HasEvent(row)) => row.status.Processed?
          case Processing(_, HasSub(row, read)) => Apply(read.sub, row.kind, row.details, now).Some?
          case Marking(_, found) => found.Some?
          case Planning(_, _, loaded) => loaded.Some?
          case Deleting(_, locked) => locked
          case _ => false)
    case End(t) => t in s.txns
  }

  predicate CanLockOrg(s: State, org: OrgId) {
    org in s.db.orgs && OrgLock(org) !in s.locks
  }

  /** Locks are held until the transaction ends, by commit or by rollback. */
  function Unlocked(locks: map<Resource, TxnId>, t: TxnId): map<Resource, TxnId> {
    map r | r in locks && locks[r] != t :: locks[r]
  }

  function Advance(s: State, t: TxnId, txn: Txn): State {
    s.(txns := s.txns[t := txn])
  }

  function Take(s: State, t: TxnId, txn: Txn, r: Resource): State {
    State(s.db, s.locks[r := t], s.txns[t := txn])
  }

  function CommitDb(db: Db, txn: Txn, now: Instant): Db {
    match txn
    case Storing(externalId, kind, details, Inserted(id)) =>
      db.(events := db.events[id := EventRow(externalId, kind, details, Pending)])
    case Processing(event, HasSub(row, read)) =>
      var org := row.details.org;
      var sub := Or(Apply(read.sub, row.kind, row.details, now), read.sub);
      db.(events := db.events[event := row.(status := Processed)],
          subscriptions := db.subscriptions[org := sub],
          log := db.log + [Applied(org, event, row.kind, row.details, read.openedAt, now, read.sub.plan, sub.plan)])
    case Marking(event, Some(row)) =>
      if row.status.Processed? then db else db.(events := db.events[event := row.(status := Failed)])
    case Planning(org, plan, Some(read)) =>
      db.(subscriptions := db.subscriptions[org := Replan(read.sub, plan, now)],
          log := db.log + [Replanned(org, plan, read.openedAt, now, read.sub.plan)])
    case Deleting(org, true) =>
      db.(orgs := db.orgs - {org}, subscriptions := db.subscriptions - {org})
    case _ => db
  }

  function Do(s: State, a: Action): State
    requires Enabled(s, a)
  {
    match a
    case CreateOrg(org, now) =>
      s.(db := Db(s.db.known + {org}, s.db.orgs + {org}, s.db.subscriptions[org := DefaultSubscription(now)],
                  s.db.events, s.db.log + [Opened(org, now)]))
    case Begin(t, txn) => Advance(s, t, txn)
    case Lookup(t, id) => Advance(s, t, s.txns[t].(store := Stored(id, s.db.events[id].status, false)))
    case LookupMissing(t) => Advance(s, t, s.txns[t].(store := Missing))
    case Insert(t, id) => Take(s, t, s.txns[t].(store := Inserted(id)), KeyLock(s.txns[t].externalId))
    case LockEvent(t) =>
      var row := s.db.events[s.txns[t].event];
      var txn := if s.txns[t].Processing? then s.txns[t].(process := HasEvent(row)) else s.txns[t].(found := Some(row));
      Take(s, t, txn, EventLock(s.txns[t].event))
    case LockOrg(t, now) =>
      (match s.txns[t]
       case Processing(_, phase) =>
         var org := phase.row.details.org;
         Take(s, t, s.txns[t].(process := HasSub(phase.row, Loaded(OrDefault(SubOf(s.db, org), now), now))),
             OrgLock(org))
       case Planning(org, plan, _) =>
         Take(s, t, Planning(org, plan, Some(Loaded(OrDefault(SubOf(s.db, org), now), now))), OrgLock(org))
       case Deleting(org, _) => Take(s, t, Deleting(org, true), OrgLock(org))
       case _ => s)
    case Commit(t, now) =>
      var rest := State(CommitDb(s.db, s.txns[t], now), Unlocked(s.locks, t), s.txns - {t});
      (match s.txns[t]
       case Storing(externalId, kind, details, phase) =>
         Advance(rest, t, Storing(externalId, kind, details, Stored(phase.id, Pending, true)))
       case Processing(event, _) => Advance(rest, t, Processing(event, Done))
       case _ => rest)
    case End(t) => State(s.db, Unlocked(s.locks, t), s.txns - {t})
  }

  /** No events, subscriptions or transactions yet; organizations may already exist. */
  predicate Init(s: State) {
    && s.db.orgs <= s.db.known
    && s.db.subscriptions == map[] && s.db.events == map[] && s.db.log == []
    && s.locks == map[] && s.txns == map[]
  }

  predicate ValidRun(s: State, run: seq<Action>)
    decreases |run|
  {
    run == [] || (Enabled(s, run[0]) && ValidRun(Do(s, run[0]), run[1..]))
  }

  function After(s: State, run: seq<Action>): State
    requires ValidRun(s, run)
    decreases |run|
  {
    if run == [] then s else After(Do(s, run[0]), run[1..])
  }

  // ----- What the history says -----

  function Count(log: seq<Change>, event: EventId): nat {
    if log == [] then 0
    else
      var last := log[|log| - 1];
      Count(log[..|log| - 1], event) + if last.Applied? && last.event == event then 1 else 0
  }

  function Next(sub: Option<Subscription>, c: Change): Option<Subscription> {
    match c
    case Opened(_, now) => Some(DefaultSubscription(now))
    case Applied(_, _, kind, details, openedAt, now, _, _) =>
      var base := OrDefault(sub, openedAt);
      Some(Or(Apply(base, kind, details, now), base))
    case Replanned(_, plan, openedAt, now, _) => Some(Replan(OrDefault(sub, openedAt), plan, now))
  }

  /** The subscription the history adds up to. */
  function Fold(log: seq<Change>, org: OrgId): Option<Subscription> {
    if log == [] then None
    else
      var last, before := log[|log| - 1], Fold(log[..|log| - 1], org);
      if last.org == org then Next(before, last) else before
  }

  /** The "subscription.changed" audit rows: one per applied event, one per effective plan change. */
  function Audits(log: seq<Change>, org: OrgId): seq<(Plan, Plan)> {
    if log == [] then []
    else
      var last, before := log[|log| - 1], Audits(log[..|log| - 1], org);
      if last.org != org || last.Opened? || (last.Replanned? && last.from == last.to) then before
      else before + [(last.from, last.to)]
  }

  function LastPlan(audits: seq<(Plan, Plan)>): Plan {
    if audits == [] then Free else audits[|audits| - 1].1
  }

  /** Each entry starts from the plan the one before it ended with; the first starts from FREE. */
  ghost predicate Chained(audits: seq<(Plan, Plan)>) {
    forall i | 0 <= i < |audits| :: audits[i].0 == LastPlan(audits[..i])
  }

  // ----- Invariant -----

  ghost predicate EventsOk(db: Db) {
    && (forall a, b | a in db.events && b in db.events && a != b :: db.events[a].externalId != db.events[b].externalId)
    && forall event :: Count(db.log, event) == if event in db.events && db.events[event].status.Processed? then 1 else 0
  }

  ghost predicate OrgOk(db: Db, org: OrgId) {
    && Fold(db.log, org) == SubOf(db, org)
    && (org in db.subscriptions ==> Ordered(db.subscriptions[org].period))
    && Chained(Audits(db.log, org))
    && LastPlan(Audits(db.log, org)) == OrDefault(SubOf(db, org), DateTime(1970, 1, 1, 0)).plan
  }

  ghost predicate DbOk(db: Db) {
    && EventsOk(db)
    && db.orgs <= db.known && db.subscriptions.Keys <= db.orgs
    && (forall org | org in db.orgs :: OrgOk(db, org))
    && forall c | c in db.log :: c.org in db.known
  }

  predicate Holds(s: State, t: TxnId, r: Resource) {
    r in s.locks && s.locks[r] == t
  }

  predicate EventHeld(s: State, t: TxnId, event: EventId, row: EventRow) {
    Holds(s, t, EventLock(event)) && event in s.db.events && s.db.events[event] == row
  }

  predicate OrgHeld(s: State, t: TxnId, org: OrgId, read: Loaded) {
    Holds(s, t, OrgLock(org)) && org in s.db.orgs && read.sub == OrDefault(SubOf(s.db, org), read.openedAt)
  }

  ghost predicate TxnOk(s: State, t: TxnId)
    requires t in s.txns
  {
    match s.txns[t]
    case Storing(externalId, _, _, Inserted(_)) =>
      && Holds(s, t, KeyLock(externalId))
      && forall id | id in s.db.events :: s.db.events[id].externalId != externalId
    case Storing(externalId, _, _, Stored(id, seen, _)) =>
      && id in s.db.events && s.db.events[id].externalId == externalId
      && (seen.Processed? ==> s.db.events[id].status.Processed?)
    case Processing(event, HasEvent(row)) => EventHeld(s, t, event, row)
    case Processing(event, HasSub(row, read)) =>
      !row.status.Processed? && EventHeld(s, t, event, row) && OrgHeld(s, t, row.details.org, read)
    case Processing(event, Done) => event in s.db.events && s.db.events[event].status.Processed?
    case Marking(event, Some(row)) => EventHeld(s, t, event, row)
    case Planning(org, _, Some(read)) => OrgHeld(s, t, org, read)
    case Deleting(org, true) => Holds(s, t, OrgLock(org)) && org in s.db.orgs
    case _ => true
  }

  ghost predicate Inv(s: State) {
    DbOk(s.db) && forall t | t in s.txns :: TxnOk(s, t)
  }

  // ----- One commit, seen by the tables -----

  lemma LogAppend(log: seq<Change>, c: Change, org: OrgId, event: EventId)
    ensures Count(log + [c], event) == Count(log, event) + if c.Applied? && c.event == event then 1 else 0
    ensures Fold(log + [c], org) == if c.org == org then Next(Fold(log, org), c) else Fold(log, org)
    ensures Audits(log + [c], org) ==
      if c.org != org || c.Opened? || (c.Replanned? && c.from == c.to) then Audits(log, org)
      else Audits(log, org) + [(c.from, c.to)]
  {
    assert (log + [c])[..|log|] == log;
  }

  lemma ChainAppend(audits: seq<(Plan, Plan)>, from: Plan, to: Plan)
    requires Chained(audits) && from == LastPlan(audits)
    ensures Chained(audits + [(from, to)]) && LastPlan(audits + [(from, to)]) == to
  {
    var longer := audits + [(from, to)];
    forall i | 0 <= i < |longer| ensures longer[i].0 == LastPlan(longer[..i]) {
      assert longer[..i] == audits[..i];
      assert i == |audits| ==> audits[..i] == audits;
    }
  }

  lemma {:induction false} UnknownOrg(log: seq<Change>, org: OrgId)
    requires forall c | c in log :: c.org != org
    ensures Fold(log, org) == None && Audits(log, org) == []
  {
    if log != [] {
      UnknownOrg(log[..|log| - 1], org);
    }
  }

  lemma PeriodsOrdered(sub: Subscription, kind: Kind, d: Details, plan: Plan, now: Instant)
    ensures Ordered(DefaultSubscription(now).period)
    ensures Ordered(Replan(sub, plan, now).period)
    ensures Apply(sub, kind, d, now).Some? && Ordered(sub.period) ==> Ordered(Apply(sub, kind, d, now).value.period)
  {
    hide Ticks;
    CalendarContains(now);
    var row := Some(sub.period);
    if Governs(row, now) {
      PeriodsPartition(row, now, now);
    }
  }

  /** What a commit leaves alone: rows whose lock the transaction does not hold, and every
      PROCESSED marker. */
  ghost predicate Confined(s: State, t: TxnId, db': Db) {
    && (forall event | event in s.db.events ::
          && event in db'.events
          && db'.events[event].externalId == s.db.events[event].externalId
          && (s.db.events[event].status.Processed? ==> db'.events[event].status.Processed?)
          && (Holds(s, t, EventLock(event)) || db'.events[event] == s.db.events[event]))
    && (forall event | event in db'.events && event !in s.db.events ::
        Holds(s, t, KeyLock(db'.events[event].externalId)))
    && (forall org | !Holds(s, t, OrgLock(org)) ::
          (org in db'.orgs <==> org in s.db.orgs) && SubOf(db', org) == SubOf(s.db, org))
  }

  lemma CommitConfined(s: State, t: TxnId, now: Instant)
    requires Inv(s) && Enabled(s, Commit(t, now))
    ensures Confined(s, t, CommitDb(s.db, s.txns[t], now))
  {
    hide Apply, Replan, DbOk, DefaultSubscription;
    assert TxnOk(s, t);
  }

  lemma OthersKeep(s: State, t: TxnId, db': Db, s': State, u: TxnId)
    requires Confined(s, t, db') && u != t && u in s.txns && TxnOk(s, u)
    requires s'.db == db' && s'.locks == Unlocked(s.locks, t) && u in s'.txns && s'.txns[u] == s.txns[u]
    ensures TxnOk(s', u)
  {
    hide DefaultSubscription;
  }

  lemma StoreKeepsEvents(db: Db, txn: Txn)
    requires EventsOk(db) && txn.Storing? && txn.store.Inserted? && txn.store.id !in db.events
    requires forall id | id in db.events :: db.events[id].externalId != txn.externalId
    ensures EventsOk(db.(events := db.events[txn.store.id := EventRow(txn.externalId, txn.kind, txn.details, Pending)]))
  {
    hide Count;
  }

  /** Applying an event adds its one entry to the history together with its PROCESSED marker. */
  lemma ApplyKeepsEvents(db: Db, event: EventId, row: EventRow, c: Change)
    requires EventsOk(db) && event in db.events && db.events[event] == row && !row.status.Processed?
    requires c.Applied? && c.event == event
    ensures EventsOk(db.(events := db.events[event := row.(status := Processed)], log := db.log + [c]))
  {
    hide Count;
    forall other ensures Count(db.log + [c], other) == Count(db.log, other) + if other == event then 1 else 0 {
      LogAppend(db.log, c, 0, other);
    }
  }

  lemma EventsKeep(s: State, t: TxnId, now: Instant)
    requires Inv(s) && Enabled(s, Commit(t, now))
    ensures EventsOk(CommitDb(s.db, s.txns[t], now))
  {
    hide Count, Apply, Replan, OrgOk, Fold, Audits;
    assert TxnOk(s, t);
    var db' := CommitDb(s.db, s.txns[t], now);
    match s.txns[t]
    case Storing(_, _, _, _) => StoreKeepsEvents(s.db, s.txns[t]);
    case Processing(event, HasSub(row, _)) =>
      ApplyKeepsEvents(s.db, event, row, db'.log[|s.db.log|]);
      assert EventsOk(db'.(subscriptions := s.db.subscriptions));
    case Planning(_, _, _) =>
      forall event ensures Count(db'.log, event) == Count(s.db.log, event) {
        LogAppend(s.db.log, db'.log[|s.db.log|], 0, event);
      }
    case _ =>
  }

  /** One history entry for an organization, made from the subscription that was in the table. */
  lemma ChangeKeepsOrg(db: Db, org: OrgId, c: Change, db': Db)
    requires OrgOk(db, org) && db'.log == db.log + [c]
    requires c.org == org ==>
      && !c.Opened?
      && c.from == OrDefault(SubOf(db, org), c.openedAt).plan
      && Next(SubOf(db, org), c) == SubOf(db', org)
      && SubOf(db', org).Some? && SubOf(db', org).value.plan == c.to
      && Ordered(SubOf(db', org).value.period)
    requires c.org != org ==> SubOf(db', org) == SubOf(db, org)
    ensures OrgOk(db', org)
  {
    hide Fold, Audits, Chained, LastPlan, Next, Ordered;
    LogAppend(db.log, c, org, "");
    if c.org == org && (c.Applied? || c.from != c.to) {
      ChainAppend(Audits(db.log, org), LastPlan(Audits(db.log, org)), c.to);
    }
  }

  lemma OrgsKeep(s: State, t: TxnId, now: Instant, org: OrgId)
    requires Inv(s) && Enabled(s, Commit(t, now)) && org in CommitDb(s.db, s.txns[t], now).orgs
    ensures org in s.db.orgs && OrgOk(CommitDb(s.db, s.txns[t], now), org)
  {
    hide Fold, Audits, Chained, LastPlan, EventsOk, Ordered;
    assert TxnOk(s, t);
    var db' := CommitDb(s.db, s.txns[t], now);
    match s.txns[t]
    case Processing(_, HasSub(row, read)) =>
      PeriodsOrdered(read.sub, row.kind, row.details, Free, now);
      PeriodsOrdered(read.sub, row.kind, row.details, Free, read.openedAt);
      ChangeKeepsOrg(s.db, org, db'.log[|s.db.log|], db');
    case Planning(_, plan, Some(read)) =>
      PeriodsOrdered(read.sub, Cancelled, Details(org, plan, None, None, None, None, None), plan, now);
      ChangeKeepsOrg(s.db, org, db'.log[|s.db.log|], db');
    case _ =>
  }

  lemma CommitKeeps(s: State, t: TxnId, now: Instant)
    requires Inv(s) && Enabled(s, Commit(t, now))
    ensures Inv(Do(s, Commit(t, now)))
  {
    hide EventsOk, OrgOk, Confined;
    var s', db' := Do(s, Commit(t, now)), CommitDb(s.db, s.txns[t], now);
    assert TxnOk(s, t);
    EventsKeep(s, t, now);
    CommitConfined(s, t, now);
    forall org | org in db'.orgs ensures OrgOk(db', org) {
      OrgsKeep(s, t, now, org);
    }
    forall u | u in s'.txns ensures TxnOk(s', u) {
      if u != t {
        OthersKeep(s, t, db', s', u);
      }
    }
  }

  lemma CreateOrgs(s: State, org: OrgId, now: Instant, o: OrgId)
    requires Inv(s) && Enabled(s, CreateOrg(org, now)) && o in Do(s, CreateOrg(org, now)).db.orgs
    ensures OrgOk(Do(s, CreateOrg(org, now)).db, o)
  {
    hide Fold, Audits, Count, Ordered, CalendarPeriod, EventsOk, TxnOk;
    LogAppend(s.db.log, Opened(org, now), o, "");
    if o == org {
      UnknownOrg(s.db.log, org);
      var none := Details(org, Free, None, None, None, None, None);
      PeriodsOrdered(DefaultSubscription(now), Cancelled, none, Free, now);
    } else {
      assert OrgOk(s.db, o);
    }
  }

  lemma CreateKeeps(s: State, org: OrgId, now: Instant)
    requires Inv(s) && Enabled(s, CreateOrg(org, now))
    ensures Inv(Do(s, CreateOrg(org, now)))
  {
    hide OrgOk, Count, DefaultSubscription;
    var s' := Do(s, CreateOrg(org, now));
    forall o | o in s'.db.orgs ensures OrgOk(s'.db, o) {
      CreateOrgs(s, org, now, o);
    }
    forall event ensures Count(s'.db.log, event) == Count(s.db.log, event) {
      LogAppend(s.db.log, Opened(org, now), org, event);
    }
    forall u | u in s'.txns ensures TxnOk(s', u) {
      assert TxnOk(s, u);
    }
  }

  predicate Quiet(a: Action) {
    !a.CreateOrg? && !a.Commit?
  }

  /** Steps that change no row: the stepping transaction, then any other. */
  lemma QuietOwn(s: State, a: Action)
    requires Inv(s) && Enabled(s, a) && Quiet(a) && a.t in Do(s, a).txns
    ensures TxnOk(Do(s, a), a.t)
  {
    hide DbOk, DefaultSubscription;
    assert a.t in s.txns ==> TxnOk(s, a.t);
  }

  lemma QuietOther(s: State, a: Action, u: TxnId)
    requires Inv(s) && Enabled(s, a) && Quiet(a) && u != a.t && u in s.txns
    ensures u in Do(s, a).txns && TxnOk(Do(s, a), u)
  {
    hide DbOk, DefaultSubscription, OrDefault;
    var s' := Do(s, a);
    assert TxnOk(s, u) && s'.txns[u] == s.txns[u] && s'.db == s.db;
    assert forall r | Holds(s, u, r) :: Holds(s', u, r);
  }

  lemma StepKeeps(s: State, a: Action)
    requires Inv(s) && Enabled(s, a)
    ensures Inv(Do(s, a))
  {
    match a
    case CreateOrg(org, now) => CreateKeeps(s, org, now);
    case Commit(t, now) => CommitKeeps(s, t, now);
    case _ =>
      hide DbOk, TxnOk, Enabled;
      var s' := Do(s, a);
      assert s'.db == s.db && s'.txns.Keys <= s.txns.Keys + {a.t};
      forall u | u in s'.txns ensures TxnOk(s', u) {
        if u == a.t {
          QuietOwn(s, a);
        } else {
          QuietOther(s, a, u);
        }
      }
  }

  lemma {:induction false} RunKeeps(s: State, run: seq<Action>)
    requires Inv(s) && ValidRun(s, run)
    ensures Inv(After(s, run))
    decreases |run|
  {
    hide Inv;
    if run != [] {
      StepKeeps(s, run[0]);
      RunKeeps(Do(s, run[0]), run[1..]);
    }
  }

  lemma InitEstablishes(s: State)
    requires Init(s)
    ensures Inv(s)
  {
  }

  // ----- Main results -----

  /** Exactly-once effect: in every run, an event has been applied once if it is PROCESSED and not
      at all otherwise, and no two events share an external id. */
  lemma ExactlyOnce(s: State, run: seq<Action>, event: EventId)
    requires Init(s) && ValidRun(s, run)
    ensures var db := After(s, run).db;
      && Count(db.log, event) == (if event in db.events && db.events[event].status.Processed? then 1 else 0)
      && forall other | event in db.events && other in db.events && other != event ::
           db.events[other].externalId != db.events[event].externalId
  {
    hide Count;
    InitEstablishes(s);
    RunKeeps(s, run);
  }

  lemma StepAbsorbs(s: State, a: Action, event: EventId)
    requires Inv(s) && Enabled(s, a) && event in s.db.events
    ensures event in Do(s, a).db.events
    ensures s.db.events[event].status.Processed? ==> Do(s, a).db.events[event].status.Processed?
    ensures Do(s, a).db.events[event].externalId == s.db.events[event].externalId
  {
    hide DbOk, Apply, Replan, DefaultSubscription;
    if a.Commit? {
      CommitConfined(s, a.t, a.now);
    }
  }

  /** PROCESSED is absorbing: retries, failure marking and re-delivery never undo it. */
  lemma {:induction false} ProcessedIsAbsorbing(s: State, run: seq<Action>, event: EventId)
    requires Inv(s) && ValidRun(s, run)
    requires event in s.db.events && s.db.events[event].status.Processed?
    ensures event in After(s, run).db.events && After(s, run).db.events[event].status.Processed?
    decreases |run|
  {
    hide Inv;
    if run != [] {
      StepAbsorbs(s, run[0], event);
      StepKeeps(s, run[0]);
      ProcessedIsAbsorbing(Do(s, run[0]), run[1..], event);
    }
  }

  /** The subscription of every existing organization is the fold of its applied events and plan
      changes in commit order, and its stored period ends after it starts. */
  lemma SubscriptionIsFold(s: State, run: seq<Action>, org: OrgId)
    requires Init(s) && ValidRun(s, run) && org in After(s, run).db.orgs
    ensures SubOf(After(s, run).db, org) == Fold(After(s, run).db.log, org)
    ensures org in After(s, run).db.subscriptions ==> Ordered(After(s, run).db.subscriptions[org].period)
  {
    hide Fold, Ordered, Audits;
    InitEstablishes(s);
    RunKeeps(s, run);
    assert OrgOk(After(s, run).db, org);
  }

  /** The audit rows of every existing organization form a chain of plans that starts from FREE
      and ends at the plan it has. */
  lemma AuditReplay(s: State, run: seq<Action>, org: OrgId)
    requires Init(s) && ValidRun(s, run) && org in After(s, run).db.subscriptions
    ensures var db := After(s, run).db;
      && Chained(Audits(db.log, org))
      && LastPlan(Audits(db.log, org)) == db.subscriptions[org].plan
  {
    hide Fold, Ordered, Audits, Chained, LastPlan;
    InitEstablishes(s);
    RunKeeps(s, run);
    assert OrgOk(After(s, run).db, org);
  }

  // ----- Undisturbed transactions -----

  lemma RunOfOne(s: State, a: Action)
    requires Enabled(s, a)
    ensures ValidRun(s, [a]) && After(s, [a]) == Do(s, a)
  {
    hide Enabled, Do;
    assert [a][1..] == [];
    assert ValidRun(Do(s, a), []);
  }

  lemma RunCons(s: State, a: Action, rest: seq<Action>)
    requires Enabled(s, a) && ValidRun(Do(s, a), rest)
    ensures ValidRun(s, [a] + rest) && After(s, [a] + rest) == After(Do(s, a), rest)
  {
    hide Enabled, Do;
    assert ([a] + rest)[1..] == rest;
  }

  /** A first delivery stores its event as PENDING, under the id it reports; a repeated one stores
      nothing and reports the stored event as it is. */
  lemma DeliveryStoresOnce(s: State, t: TxnId, externalId: string, kind: Kind, details: Details, id: EventId,
      now: Instant)
    requires t !in s.txns && id !in s.db.events && KeyLock(externalId) !in s.locks
    requires forall other | other in s.db.events :: s.db.events[other].externalId != externalId
    ensures var begin := Begin(t, Storing(externalId, kind, details, Asking));
      var first := [begin] + ([LookupMissing(t)] + ([Insert(t, id)] + [Commit(t, now)]));
      && ValidRun(s, first)
      && After(s, first).db == s.db.(events := s.db.events[id := EventRow(externalId, kind, details, Pending)])
      && t in After(s, first).txns && After(s, first).txns[t].Storing?
      && After(s, first).txns[t].store == Stored(id, Pending, true)
  {
    var a := Begin(t, Storing(externalId, kind, details, Asking));
    var b, c, d := LookupMissing(t), Insert(t, id), Commit(t, now);
    assert Enabled(s, a);
    var s1 := Do(s, a);
    assert Enabled(s1, b);
    var s2 := Do(s1, b);
    assert Enabled(s2, c);
    var s3 := Do(s2, c);
    assert Enabled(s3, d);
    hide Enabled, ValidRun, After;
    RunOfOne(s3, d);
    RunCons(s2, c, [d]);
    RunCons(s1, b, [c] + [d]);
    RunCons(s, a, [b] + ([c] + [d]));
  }

  lemma RedeliveryStoresNothing(s: State, t: TxnId, externalId: string, kind: Kind, details: Details, id: EventId)
    requires t !in s.txns && id in s.db.events && s.db.events[id].externalId == externalId
    ensures var again := [Begin(t, Storing(externalId, kind, details, Asking))] + [Lookup(t, id)];
      && ValidRun(s, again) && After(s, again).db == s.db
      && t in After(s, again).txns && After(s, again).txns[t].Storing?
      && After(s, again).txns[t].store == Stored(id, s.db.events[id].status, false)
  {
    var a, b := Begin(t, Storing(externalId, kind, details, Asking)), Lookup(t, id);
    assert Enabled(s, a) && Enabled(Do(s, a), b);
    hide Enabled, ValidRun, After;
    RunOfOne(Do(s, a), b);
    RunCons(s, a, [b]);
  }

  /** Marking an event failed touches that event's status alone, and not at all once it is
      PROCESSED. */
  lemma MarkingFails(s: State, t: TxnId, id: EventId, now: Instant)
    requires t !in s.txns && id in s.db.events && EventLock(id) !in s.locks
    ensures var row, run := s.db.events[id], [Begin(t, Marking(id, None))] + ([LockEvent(t)] + [Commit(t, now)]);
      && ValidRun(s, run)
      && var status := if row.status.Processed? then Processed else Failed;
         After(s, run).db == s.db.(events := s.db.events[id := row.(status := status)])
  {
    var a, b, c := Begin(t, Marking(id, None)), LockEvent(t), Commit(t, now);
    assert Enabled(s, a);
    var s1 := Do(s, a);
    assert Enabled(s1, b);
    var s2 := Do(s1, b);
    assert Enabled(s2, c);
    assert s.db.events[id := s.db.events[id]] == s.db.events;
    hide Enabled, ValidRun, After;
    RunOfOne(s2, c);
    RunCons(s1, b, [c]);
    RunCons(s, a, [b] + [c]);
  }

  /** Undisturbed, a plan change of an existing organization commits: plan and status are set, the
      external ids stay, later instants are billed as before, and nothing else changes. A missing
      subscription is created on the way, billed by calendar months. */
  lemma PlanChangeTakesEffect(s: State, t: TxnId, org: OrgId, plan: Plan, read: Instant, now: Instant, x: Instant)
    requires t !in s.txns && org in s.db.orgs && OrgLock(org) !in s.locks
    requires Ticks(read) <= Ticks(now) <= Ticks(x)
    ensures var run, found := [Begin(t, Planning(org, plan, None))] + ([LockOrg(t, read)] + [Commit(t, now)]),
                              SubOf(s.db, org);
      && ValidRun(s, run) && org in After(s, run).db.subscriptions
      && var db := After(s, run).db;
         && db.events == s.db.events && db.orgs == s.db.orgs && db.subscriptions - {org} == s.db.subscriptions - {org}
         && var sub := db.subscriptions[org];
            && sub.plan == plan && sub.status == Active
            && sub.customer == (if found.Some? then found.value.customer else None)
            && sub.external == (if found.Some? then found.value.external else None)
            && PeriodAt(Some(sub.period), x) == PeriodAt(if found.Some? then Some(found.value.period) else None, x)
  {
    hide PeriodAt, Ticks, CalendarPeriod;
    var a, b, c := Begin(t, Planning(org, plan, None)), LockOrg(t, read), Commit(t, now);
    var found := OrDefault(SubOf(s.db, org), read);
    assert Enabled(s, a);
    var s1 := Do(s, a);
    assert Enabled(s1, b);
    var s2 := Do(s1, b);
    assert Enabled(s2, c);
    assert s2.txns[t] == Planning(org, plan, Some(Loaded(found, read)));
    assert Do(s2, c).db.subscriptions - {org} == s.db.subscriptions - {org};
    PlanChangeMeaning(found, plan, now, x);
    BilledFromCreation(read, x);
    hide Enabled, ValidRun, After;
    RunOfOne(s2, c);
    RunCons(s1, b, [c]);
    RunCons(s, a, [b] + [c]);
  }

  lemma BilledFromCreation(created: Instant, x: Instant)
    requires Ticks(created) <= Ticks(x)
    ensures PeriodAt(Some(DefaultSubscription(created).period), x) == PeriodAt(None, x)
  {
    hide Ticks;
    RollingIsPathIndependent(None, created, x);
  }

  /** A new organization starts as FREE and ACTIVE, billed by calendar months. */
  lemma CreationTakesEffect(s: State, org: OrgId, now: Instant, x: Instant)
    requires Enabled(s, CreateOrg(org, now)) && Ticks(now) <= Ticks(x)
    ensures var db := Do(s, CreateOrg(org, now)).db;
      && db.orgs == s.db.orgs + {org} && db.events == s.db.events && org in db.subscriptions
      && db.subscriptions - {org} == s.db.subscriptions - {org}
      && var sub := db.subscriptions[org];
         && sub.plan == Free && sub.status == Active && sub.customer == None && sub.external == None
         && PeriodAt(Some(sub.period), x) == PeriodAt(None, x)
  {
    hide PeriodAt, Ticks, CalendarPeriod;
    BilledFromCreation(now, x);
    assert s.db.subscriptions[org := DefaultSubscription(now)] - {org} == s.db.subscriptions - {org};
  }

  lemma {:induction false} DeletedStays(s: State, later: seq<Action>, org: OrgId)
    requires org in s.db.known && org !in s.db.orgs && ValidRun(s, later)
    ensures org !in After(s, later).db.orgs
    decreases |later|
  {
    hide Apply, Replan, DefaultSubscription;
    if later != [] {
      DeletedStays(Do(s, later[0]), later[1..], org);
    }
  }

  /** Undisturbed, deleting an organization takes away it and its subscription and nothing else, and
      no later step brings it back. */
  lemma DeletionTakesEffect(s: State, t: TxnId, org: OrgId, read: Instant, now: Instant, later: seq<Action>)
    requires t !in s.txns && org in s.db.orgs && OrgLock(org) !in s.locks && s.db.orgs <= s.db.known
    ensures var run := [Begin(t, Deleting(org, false))] + ([LockOrg(t, read)] + [Commit(t, now)]);
      && ValidRun(s, run)
      && After(s, run).db == s.db.(orgs := s.db.orgs - {org}, subscriptions := s.db.subscriptions - {org})
      && (ValidRun(After(s, run), later) ==> org !in After(After(s, run), later).db.orgs)
  {
    hide Ticks;
    var a, b, c := Begin(t, Deleting(org, false)), LockOrg(t, read), Commit(t, now);
    assert Enabled(s, a);
    var s1 := Do(s, a);
    assert Enabled(s1, b);
    var s2 := Do(s1, b);
    assert Enabled(s2, c);
    var end := Do(s2, c);
    assert end.db == s.db.(orgs := s.db.orgs - {org}, subscriptions := s.db.subscriptions - {org});
    hide Enabled, ValidRun, After;
    RunOfOne(s2, c);
    RunCons(s1, b, [c]);
    RunCons(s, a, [b] + [c]);
    if ValidRun(end, later) {
      DeletedStays(end, later, org);
    }
  }

  /** Commit and rollback free all locks of the transaction and no other; rollback changes no row. */
  lemma EndFreesLocks(s: State, a: Action)
    requires Enabled(s, a) && (a.Commit? || a.End?)
    ensures forall r :: r in Do(s, a).locks <==> r in s.locks && s.locks[r] != a.t
    ensures forall r | r in Do(s, a).locks :: Do(s, a).locks[r] == s.locks[r]
    ensures a.End? ==> Do(s, a).db == s.db && Do(s, a).txns == s.txns - {a.t}
  {
    hide CommitDb, Apply;
  }

  // ----- The history in closed form -----

  datatype Field = PlanField | StatusField | CustomerField | ExternalField | PeriodField

  /** An event that describes a whole subscription, with a legal period. */
  predicate Describes(c: Change) {
    c.Applied? && (c.kind == Created || c.kind == Updated) && Ordered(NamedPeriod(c.details, c.now))
  }

  /** Which changes decide a field, whatever was there before. */
  predicate Sets(c: Change, f: Field) {
    c.Opened? ||
    match f
    case PlanField => c.Replanned? || Describes(c)
    case StatusField => c.Replanned? || Describes(c) || (c.Applied? && (c.kind == Cancelled || c.kind == PaymentFailed))
    case CustomerField => Describes(c) && c.details.customer.Some?
    case ExternalField => Describes(c) && c.details.external.Some?
    case PeriodField => Describes(c)
  }

  function PlanSet(c: Change): Plan {
    match c
    case Opened(_, _) => Free
    case Applied(_, _, _, details, _, _, _, _) => details.plan
    case Replanned(_, plan, _, _, _) => plan
  }

  function StatusSet(c: Change): Status {
    if c.Opened? || c.Replanned? then Active
    else if c.kind == Cancelled then Canceled
    else if c.kind == PaymentFailed then PastDue
    else Or(c.details.status, Active)
  }

  function CustomerSet(c: Change): Option<string> {
    if c.Applied? then Or(c.details.customer, None) else None
  }

  function ExternalSet(c: Change): Option<string> {
    if c.Applied? then Or(c.details.external, None) else None
  }

  function PeriodSet(c: Change): Period {
    if c.Applied? then NamedPeriod(c.details, c.now) else CalendarPeriod(c.now)
  }

  /** Where the history of an organization last sets a field, or -1. */
  function LastSetter(log: seq<Change>, org: OrgId, f: Field): (k: int)
    ensures -1 <= k < |log|
    ensures k >= 0 ==> log[k].org == org && Sets(log[k], f)
    ensures forall j | k < j < |log| && log[j].org == org :: !Sets(log[j], f)
  {
    if log == [] then -1
    else
      var k := |log| - 1;
      if log[k].org == org && Sets(log[k], f) then k else LastSetter(log[..k], org, f)
  }

  /** One change against the closed form: it sets the fields it decides and leaves the others. */
  lemma NextSets(sub: Option<Subscription>, c: Change)
    ensures var base, next := OrDefault(sub, if c.Opened? then c.now else c.openedAt), Next(sub, c);
      && next.Some?
      && next.value.plan == (if Sets(c, PlanField) then PlanSet(c) else base.plan)
      && next.value.status == (if Sets(c, StatusField) then StatusSet(c) else base.status)
      && next.value.customer == (if Sets(c, CustomerField) then CustomerSet(c) else base.customer)
      && next.value.external == (if Sets(c, ExternalField) then ExternalSet(c) else base.external)
      && next.value.period ==
           (if Sets(c, PeriodField) then PeriodSet(c)
            else if c.Replanned? then PeriodAt(Some(base.period), c.now)
            else base.period)
  {
    hide Ticks, PeriodAt, CalendarPeriod;
  }

  /** The fold in closed form: plan and status are those of the last change that sets them, the
      external ids those of the last event that mentions them, wherever in the history it is. */
  lemma {:induction false} FoldInClosedForm(log: seq<Change>, org: OrgId)
    requires Fold(log, org).Some?
    ensures var sub := Fold(log, org).value;
      var plan, status := LastSetter(log, org, PlanField), LastSetter(log, org, StatusField);
      var customer, external := LastSetter(log, org, CustomerField), LastSetter(log, org, ExternalField);
      && sub.plan == (if plan < 0 then Free else PlanSet(log[plan]))
      && sub.status == (if status < 0 then Active else StatusSet(log[status]))
      && sub.customer == (if customer < 0 then None else CustomerSet(log[customer]))
      && sub.external == (if external < 0 then None else ExternalSet(log[external]))
    decreases |log|
  {
    hide Next, Sets, PlanSet, StatusSet, CustomerSet, ExternalSet, CalendarPeriod;
    if log != [] {
      var init, c := log[..|log| - 1], log[|log| - 1];
      if Fold(init, org).Some? {
        FoldInClosedForm(init, org);
      } else {
        NothingSetBefore(init, org);
      }
      NextSets(Fold(init, org), c);
    }
  }

  /** Without a subscription there is no history. */
  lemma {:induction false} NothingSetBefore(log: seq<Change>, org: OrgId)
    requires Fold(log, org).None?
    ensures forall f :: LastSetter(log, org, f) == -1
    decreases |log|
  {
    hide Next, Sets;
    if log != [] {
      var init, c := log[..|log| - 1], log[|log| - 1];
      if c.org == org {
        NextSets(Fold(init, org), c);
        assert false;
      }
      NothingSetBefore(init, org);
    }
  }

  /** Where the history of an organization begins, or -1. */
  function FirstChange(log: seq<Change>, org: OrgId): (k: int)
    ensures -1 <= k < |log|
    ensures k >= 0 ==> log[k].org == org
    ensures forall j | 0 <= j < (if k < 0 then |log| else k) :: log[j].org != org
  {
    if log == [] then -1
    else
      var last := |log| - 1;
      var k := FirstChange(log[..last], org);
      if k < 0 && log[last].org == org then last else k
  }

  /** The period a history describes last; without any, the subscription was created on the way, by
      the first event or plan change, with the calendar month of that moment. */
  function Basis(log: seq<Change>, org: OrgId): Period
    requires FirstChange(log, org) >= 0
  {
    var k, first := LastSetter(log, org, PeriodField), log[FirstChange(log, org)];
    if k >= 0 then PeriodSet(log[k]) else CalendarPeriod(if first.Opened? then first.now else first.openedAt)
  }

  lemma {:induction false} FoldBegins(log: seq<Change>, org: OrgId)
    ensures Fold(log, org).Some? <==> FirstChange(log, org) >= 0
    decreases |log|
  {
    hide Next;
    if log != [] {
      var init, c := log[..|log| - 1], log[|log| - 1];
      FoldBegins(init, org);
      NextSets(Fold(init, org), c);
    }
  }

  lemma BasisAppend(log: seq<Change>, c: Change, org: OrgId)
    requires FirstChange(log, org) >= 0
    requires c.org != org || !Sets(c, PeriodField)
    ensures FirstChange(log + [c], org) == FirstChange(log, org) && Basis(log + [c], org) == Basis(log, org)
  {
    hide Sets, PeriodSet, CalendarPeriod;
    assert (log + [c])[..|log|] == log;
  }

  /** Without a described period, the basis is the calendar month of the creation. */
  lemma UndescribedBasis(log: seq<Change>, org: OrgId, x: Instant)
    requires FirstChange(log, org) >= 0 && LastSetter(log, org, PeriodField) < 0
    ensures var first := log[FirstChange(log, org)];
      && !first.Opened?
      && (Ticks(first.openedAt) <= Ticks(x) ==> PeriodAt(Some(Basis(log, org)), x) == CalendarPeriod(x))
  {
    hide Ticks, FirstChange, LastSetter;
    var first := log[FirstChange(log, org)];
    assert !Sets(first, PeriodField);
    if Ticks(first.openedAt) <= Ticks(x) {
      RollingIsPathIndependent(None, first.openedAt, x);
    }
  }

  /** Plan changes never shift billing: every instant not before them is billed by the last period
      described, or, if none was, by calendar months from the creation of the subscription on. */
  lemma {:induction false} BilledByLastDescription(log: seq<Change>, org: OrgId, x: Instant)
    requires Fold(log, org).Some?
    requires forall c | c in log && c.org == org && c.Replanned? :: Ticks(c.now) <= Ticks(x)
    ensures FirstChange(log, org) >= 0
    ensures PeriodAt(Some(Fold(log, org).value.period), x) == PeriodAt(Some(Basis(log, org)), x)
    ensures LastSetter(log, org, PeriodField) < 0 && Ticks(log[FirstChange(log, org)].openedAt) <= Ticks(x) ==>
      PeriodAt(Some(Basis(log, org)), x) == CalendarPeriod(x)
    decreases |log|
  {
    FoldBegins(log, org);
    var init, c := log[..|log| - 1], log[|log| - 1];
    assert log == init + [c];
    NextSets(Fold(init, org), c);
    FoldBegins(init, org);
    if LastSetter(log, org, PeriodField) < 0 {
      UndescribedBasis(log, org, x);
    }
    if Fold(init, org).Some? {
      BilledByLastDescription(init, org, x);
      if c.org != org || !Sets(c, PeriodField) {
        BasisAppend(init, c, org);
      }
    } else {
      NothingSetBefore(init, org);
    }
    hide Next, Sets, PeriodSet, PeriodAt, Ticks, CalendarPeriod;
    if c.org == org && c.Replanned? {
      RollingIsPathIndependent(Some(OrDefault(Fold(init, org), c.openedAt).period), c.now, x);
    }
  }

  /** In every run, an organization's subscription is its history in closed form, and bills every
      instant not before its plan changes by the basis of that history. */
  lemma SubscriptionInClosedForm(s: State, run: seq<Action>, org: OrgId, x: Instant)
    requires Init(s) && ValidRun(s, run) && org in After(s, run).db.orgs && org in After(s, run).db.subscriptions
    requires forall c | c in After(s, run).db.log && c.org == org && c.Replanned? :: Ticks(c.now) <= Ticks(x)
    ensures var sub, log := After(s, run).db.subscriptions[org], After(s, run).db.log;
      var plan, status := LastSetter(log, org, PlanField), LastSetter(log, org, StatusField);
      var customer, external := LastSetter(log, org, CustomerField), LastSetter(log, org, ExternalField);
      && sub.plan == (if plan < 0 then Free else PlanSet(log[plan]))
      && sub.status == (if status < 0 then Active else StatusSet(log[status]))
      && sub.customer == (if customer < 0 then None else CustomerSet(log[customer]))
      && sub.external == (if external < 0 then None else ExternalSet(log[external]))
      && FirstChange(log, org) >= 0 && PeriodAt(Some(sub.period), x) == PeriodAt(Some(Basis(log, org)), x)
  {
    hide Init, ValidRun, After, Fold, LastSetter, PlanSet, StatusSet, CustomerSet, ExternalSet, Basis, PeriodAt, Ticks,
         FirstChange;
    SubscriptionIsFold(s, run, org);
    FoldInClosedForm(After(s, run).db.log, org);
    BilledByLastDescription(After(s, run).db.log, org, x);
  }
}
