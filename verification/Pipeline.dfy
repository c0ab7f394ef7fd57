/** The webhook pipeline: deliveries store and enqueue, one worker takes, applies, retries and
    buries, and the process may crash wherever control can stop. Every database step is a step of
    `BillingDb`, so all other billing transactions interleave with the pipeline. */
module Pipeline {
  import BillingDb
  import opened Calendar
  import opened JobQueue
  import opened Jobs
  import opened Options
  import Workers

  type EventId = BillingDb.EventId

  datatype WorkerState =
    | Down
    | Recovering
    | Ready
    | Holding(job: Job)     // taken; its handler has not touched the database
    | Applying(job: Job)    // the applying transaction is open, or committed and not yet reported
    | Recording(job: Job)   // applying raised; the failure-marking transaction may be open
    | Failing(job: Job)     // the handler raised
    | Succeeding(job: Job)  // the handler returned

  /** `issued`, `acked` and `accepted` are history: job ids ever enqueued, job ids acknowledged,
      and events whose delivery was answered. */
  datatype State = State(
    bill: BillingDb.State, lists: Lists, worker: WorkerState, maxAttempts: int,
    issued: set<string>, acked: set<string>, accepted: set<EventId>)

  /** The worker's transaction id; requests use the others. */
  const WORKER: BillingDb.TxnId := 0

  /** `Enqueue` without an answer is a push whose request died before replying; `RedisError` is a
      lost reply to taking a job, or a list command that did not reach Redis. */
  datatype Action =
    | Api(a: BillingDb.Action)
    | Enqueue(t: BillingDb.TxnId, id: string, createdAt: string, answered: bool)
    | AnswerDuplicate(t: BillingDb.TxnId)
    | EnqueueOther(job: Job)
    | Start
    | RecoverOne
    | RecoverDone
    | Dequeue
    | PollEmpty
    | BeginApply
    | HandleOther(ok: bool)
    | WorkerDb(a: BillingDb.Action)
    | Return
    | Raise
    | FailureRecorded
    | Settle(mark: Mark)
    | Acknowledge
    | RedisError
    | Crash

  predicate Owns(a: BillingDb.Action, t: BillingDb.TxnId) {
    !a.CreateOrg? && a.t == t
  }

  predicate Answered(s: State, t: BillingDb.TxnId) {
    t in s.bill.txns && t != WORKER && s.bill.txns[t].Storing? && s.bill.txns[t].store.Stored?
  }

  /** `should_enqueue` of the route. */
  predicate ShouldEnqueue(s: State, t: BillingDb.TxnId)
    requires Answered(s, t)
  {
    s.bill.txns[t].store.created || !s.bill.txns[t].store.seen.Processed?
  }

  predicate Enabled(s: State, a: Action) {
    match a
    case Api(a) => BillingDb.Enabled(s.bill, a) && !Owns(a, WORKER)
    case Enqueue(t, id, _, _) =>
      Answered(s, t) && ShouldEnqueue(s, t) && id !in s.issued && s.bill.txns[t].store.id != ""
    case AnswerDuplicate(t) => Answered(s, t) && !ShouldEnqueue(s, t)
    case EnqueueOther(job) => job.kind != "process_billing_webhook" && job.id !in s.issued
    case Start => s.worker.Down?
    case RecoverOne => s.worker.Recovering? && s.lists.processing != []
    case RecoverDone => s.worker.Recovering? && s.lists.processing == []
    case Dequeue => s.worker.Ready? && s.lists.waiting != [] && FromEntry(s.lists.waiting[|s.lists.waiting| - 1]).Some?
    case PollEmpty => s.worker.Ready? && s.lists.waiting == []
    case BeginApply => s.worker.Holding? && NamedEvent(s.worker.job).Some? && WORKER !in s.bill.txns
    case HandleOther(ok) =>
      && s.worker.Holding? && NamedEvent(s.worker.job).None?
      && (ok ==> s.worker.job.kind != "process_billing_webhook")
    case WorkerDb(a) =>
      && (s.worker.Applying? || s.worker.Recording?)
      && Owns(a, WORKER) && !a.Begin? && !a.End? && BillingDb.Enabled(s.bill, a)
    case Return =>
      && s.worker.Applying? && WORKER in s.bill.txns
      && s.bill.txns[WORKER].Processing? && s.bill.txns[WORKER].process.Done?
    case Raise => s.worker.Applying? && NamedEvent(s.worker.job).Some?
    case FailureRecorded => s.worker.Recording?
    case Settle(_) => s.worker.Failing?
    case Acknowledge => s.worker.Succeeding?
    case RedisError => s.worker.Holding? || s.worker.Failing? || s.worker.Succeeding?
    case Crash => true
  }

  /** Ends the worker's transaction, if one is open: its locks go, its uncommitted work too. */
  function Dropped(bill: BillingDb.State): BillingDb.State {
    if WORKER in bill.txns then BillingDb.Do(bill, BillingDb.End(WORKER)) else bill
  }

  function Opening(bill: BillingDb.State, txn: BillingDb.Txn): BillingDb.State {
    if WORKER !in bill.txns && BillingDb.Fresh(txn) then BillingDb.Do(bill, BillingDb.Begin(WORKER, txn)) else bill
  }

  function Do(s: State, a: Action): State
    requires Enabled(s, a)
  {
    match a
    case Api(a) => s.(bill := BillingDb.Do(s.bill, a))
    case Enqueue(t, id, createdAt, answered) =>
      var event := s.bill.txns[t].store.id;
      s.(bill := BillingDb.Do(s.bill, BillingDb.End(t)), lists := Enqueued(s.lists, WebhookJob(id, event, createdAt)),
         issued := s.issued + {id}, accepted := if answered then s.accepted + {event} else s.accepted)
    case AnswerDuplicate(t) =>
      s.(bill := BillingDb.Do(s.bill, BillingDb.End(t)), accepted := s.accepted + {s.bill.txns[t].store.id})
    case EnqueueOther(job) => s.(lists := Enqueued(s.lists, job), issued := s.issued + {job.id})
    case Start => s.(worker := Recovering)
    case RecoverOne => s.(lists := Returned(s.lists))
    case RecoverDone => s.(worker := Ready)
    case Dequeue =>
      var job := FromEntry(s.lists.waiting[|s.lists.waiting| - 1]).value;
      s.(lists := Taken(s.lists), worker := Holding(job))
    case PollEmpty => s
    case BeginApply =>
      var event := NamedEvent(s.worker.job).value;
      s.(bill := Opening(s.bill, BillingDb.Processing(event, BillingDb.Waiting)), worker := Applying(s.worker.job))
    case HandleOther(ok) => s.(worker := if ok then Succeeding(s.worker.job) else Failing(s.worker.job))
    case WorkerDb(a) => s.(bill := BillingDb.Do(s.bill, a))
    case Return => s.(bill := Dropped(s.bill), worker := Succeeding(s.worker.job))
    case Raise =>
      var event := NamedEvent(s.worker.job).value;
      s.(bill := Opening(Dropped(s.bill), BillingDb.Marking(event, None)), worker := Recording(s.worker.job))
    case FailureRecorded => s.(bill := Dropped(s.bill), worker := Failing(s.worker.job))
    case Settle(mark) =>
      var job := s.worker.job;
      s.(worker := Ready,
         lists := if job.attempt >= s.maxAttempts then Buried(s.lists, job, mark) else Retried(s.lists, job))
    case Acknowledge =>
      s.(worker := Ready, lists := Acknowledged(s.lists, s.worker.job), acked := s.acked + {s.worker.job.id})
    case RedisError => s.(worker := Ready)
    case Crash => s.(bill := Dropped(s.bill), worker := Down)
  }

  predicate Init(s: State) {
    && BillingDb.Init(s.bill) && s.lists == Lists([], [], []) && s.worker == Down
    && s.issued == {} && s.acked == {} && s.accepted == {}
  }

  predicate ValidRun(s: State, run: seq<Action>)
    decreases |run|
  {
    run == [] || (Enabled(s, run[0]) && ValidRun(Do(s, run[0]), run[1..]))
  }

  function After(s: State, run: seq<Action>): State
    requires ValidRun(s, run)
    decreases |run|
  {
    if run == [] then s else After(Do(s, run[0]), run[1..])
  }

  // ----- Where a job is, and what it is about -----

  /** Ids of the jobs in a list, with multiplicity. */
  function Bag(list: seq<Json>, job: Json -> Option<Job>): multiset<string> {
    if list == [] then multiset{}
    else
      Bag(list[1..], job) + if job(list[0]).Some? then multiset{job(list[0]).value.id} else multiset{}
  }

  predicate Names(job: Option<Job>, event: EventId) {
    job.Some? && NamedEvent(job.value) == Some(event)
  }

  predicate IsProcessed(s: State, event: EventId) {
    event in s.bill.db.events && s.bill.db.events[event].status.Processed?
  }

  /** The event is PROCESSED, or a job naming it is waiting, in flight or dead-lettered. */
  ghost predicate Covered(s: State, event: EventId) {
    || IsProcessed(s, event)
    || (exists e :: e in s.lists.waiting && Names(FromEntry(e), event))
    || (exists e :: e in s.lists.processing && Names(FromEntry(e), event))
    || (exists e :: e in s.lists.dead && Names(DeadJob(e), event))
  }

  // ----- Invariant -----

  predicate ListsOk(l: Lists) {
    && (forall e | e in l.waiting :: IsJobEntry(e))
    && (forall e | e in l.processing :: IsJobEntry(e))
  }

  ghost predicate Conserved(s: State) {
    Bag(s.lists.waiting, FromEntry) + Bag(s.lists.processing, FromEntry) + Bag(s.lists.dead, DeadJob)
    + multiset(s.acked)
    == multiset(s.issued)
  }

  predicate HasJob(w: WorkerState) {
    w.Holding? || w.Applying? || w.Recording? || w.Failing? || w.Succeeding?
  }

  predicate WorkerOk(s: State) {
    && (HasJob(s.worker) ==>
      var e := ToEntry(s.worker.job);
      e in s.lists.processing && FromEntry(e) == Some(s.worker.job))
    && (WORKER in s.bill.txns ==>
      && (s.worker.Applying? || s.worker.Recording?)
      && var txn := s.bill.txns[WORKER];
         if s.worker.Applying? then txn.Processing? && NamedEvent(s.worker.job) == Some(txn.event) else txn.Marking?)
    && (s.worker.Succeeding? && NamedEvent(s.worker.job).Some? ==> IsProcessed(s, NamedEvent(s.worker.job).value))
  }

  ghost predicate Inv(s: State) {
    && BillingDb.Inv(s.bill)
    && ListsOk(s.lists)
    && Conserved(s)
    && WorkerOk(s)
    && forall event | event in s.accepted :: Covered(s, event)
  }

  // ----- List lemmas -----

  lemma {:induction false} BagConcat(a: seq<Json>, b: seq<Json>, job: Json -> Option<Job>)
    ensures Bag(a + b, job) == Bag(a, job) + Bag(b, job)
  {
    if a == [] {
      assert a + b == b;
    } else {
      assert (a + b)[1..] == a[1..] + b;
      BagConcat(a[1..], b, job);
    }
  }

  lemma {:induction false} BagRemove(list: seq<Json>, e: Json, job: Json -> Option<Job>)
    requires e in list && job(e).Some?
    ensures Bag(list, job) == Bag(RemoveFirst(list, e), job) + multiset{job(e).value.id}
  {
    if list[0] != e {
      BagRemove(list[1..], e, job);
      var left := RemoveFirst(list, e);
      assert left[0] == list[0] && left[1..] == RemoveFirst(list[1..], e);
    }
  }

  lemma {:induction false} RemoveMembers(list: seq<Json>, e: Json)
    ensures forall other | other in RemoveFirst(list, e) :: other in list
    ensures forall other | other in list && other != e :: other in RemoveFirst(list, e)
  {
    if list != [] && list[0] != e {
      RemoveMembers(list[1..], e);
    }
  }

  lemma TakenBags(l: Lists)
    requires l.waiting != []
    ensures Bag(l.waiting, FromEntry) + Bag(l.processing, FromEntry)
         == Bag(Taken(l).waiting, FromEntry) + Bag(Taken(l).processing, FromEntry)
    ensures forall e :: e in l.waiting || e in l.processing <==> e in Taken(l).waiting || e in Taken(l).processing
  {
    var n := |l.waiting| - 1;
    assert l.waiting == l.waiting[..n] + [l.waiting[n]];
    BagConcat(l.waiting[..n], [l.waiting[n]], FromEntry);
    BagConcat([l.waiting[n]], l.processing, FromEntry);
  }

  lemma ReturnedBags(l: Lists)
    requires l.processing != []
    ensures Bag(l.waiting, FromEntry) + Bag(l.processing, FromEntry)
         == Bag(Returned(l).waiting, FromEntry) + Bag(Returned(l).processing, FromEntry)
    ensures forall e :: e in l.waiting || e in l.processing <==> e in Returned(l).waiting || e in Returned(l).processing
  {
    var n := |l.processing| - 1;
    assert l.processing == l.processing[..n] + [l.processing[n]];
    BagConcat(l.processing[..n], [l.processing[n]], FromEntry);
    BagConcat([l.processing[n]], l.waiting, FromEntry);
  }

  // ----- Database steps -----

  /** The database half of a step: the billing invariant holds, and PROCESSED stays. */
  ghost predicate BillMoves(bill: BillingDb.State, bill': BillingDb.State) {
    && BillingDb.Inv(bill')
    && forall event | event in bill.db.events && bill.db.events[event].status.Processed? ::
         event in bill'.db.events && bill'.db.events[event].status.Processed?
  }

  lemma BillStep(bill: BillingDb.State, a: BillingDb.Action)
    requires BillingDb.Inv(bill) && BillingDb.Enabled(bill, a)
    ensures BillMoves(bill, BillingDb.Do(bill, a))
  {
    hide BillingDb.Inv, BillingDb.Enabled, BillingDb.Do;
    BillingDb.StepKeeps(bill, a);
    forall event | event in bill.db.events && bill.db.events[event].status.Processed?
      ensures event in BillingDb.Do(bill, a).db.events && BillingDb.Do(bill, a).db.events[event].status.Processed?
    {
      BillingDb.StepAbsorbs(bill, a, event);
    }
  }

  lemma DropStep(bill: BillingDb.State)
    requires BillingDb.Inv(bill)
    ensures BillMoves(bill, Dropped(bill)) && WORKER !in Dropped(bill).txns
    ensures Dropped(bill).db == bill.db
  {
    hide BillingDb.Inv;
    if WORKER in bill.txns {
      BillStep(bill, BillingDb.End(WORKER));
    }
  }

  lemma OpenStep(bill: BillingDb.State, txn: BillingDb.Txn)
    requires BillingDb.Inv(bill) && WORKER !in bill.txns && BillingDb.Fresh(txn)
    ensures BillMoves(bill, Opening(bill, txn))
    ensures WORKER in Opening(bill, txn).txns && Opening(bill, txn).txns[WORKER] == txn
    ensures Opening(bill, txn).db == bill.db
  {
    hide BillingDb.Inv;
    BillStep(bill, BillingDb.Begin(WORKER, txn));
  }

  /** Steps of other transactions leave the worker's alone. */
  lemma ApiFrames(bill: BillingDb.State, a: BillingDb.Action, t: BillingDb.TxnId)
    requires BillingDb.Enabled(bill, a) && !Owns(a, t)
    ensures t in BillingDb.Do(bill, a).txns <==> t in bill.txns
    ensures t in bill.txns ==> BillingDb.Do(bill, a).txns[t] == bill.txns[t]
  {
  }

  /** A worker step keeps its transaction the same kind, about the same event, or ends it. */
  lemma WorkerDbFrames(bill: BillingDb.State, a: BillingDb.Action)
    requires BillingDb.Enabled(bill, a) && Owns(a, WORKER) && !a.Begin? && !a.End?
    requires WORKER in bill.txns && (bill.txns[WORKER].Processing? || bill.txns[WORKER].Marking?)
    ensures WORKER in BillingDb.Do(bill, a).txns ==>
      var txn, txn' := bill.txns[WORKER], BillingDb.Do(bill, a).txns[WORKER];
      txn'.Processing? == txn.Processing? && txn'.Marking? == txn.Marking? && txn'.event == txn.event
    ensures bill.txns[WORKER].Processing? ==> WORKER in BillingDb.Do(bill, a).txns
  {
  }

  lemma DoneIsProcessed(bill: BillingDb.State, event: EventId)
    requires BillingDb.Inv(bill) && WORKER in bill.txns
    requires bill.txns[WORKER] == BillingDb.Processing(event, BillingDb.Done)
    ensures event in bill.db.events && bill.db.events[event].status.Processed?
  {
    hide BillingDb.DbOk;
    assert BillingDb.TxnOk(bill, WORKER);
  }

  // ----- Every step keeps the invariant -----

  /** Steps that change no list: the worker's own condition is all that is left to show. */
  lemma SameLists(s: State, s': State)
    requires Inv(s) && BillMoves(s.bill, s'.bill) && WorkerOk(s')
    requires s'.lists == s.lists && s'.issued == s.issued && s'.acked == s.acked && s'.accepted == s.accepted
    ensures Inv(s')
  {
    hide BillingDb.Inv, WorkerOk, ListsOk, Names, Bag;
    forall event | event in s'.accepted ensures Covered(s', event) {
      assert Covered(s, event);
    }
  }

  lemma StutterBill(bill: BillingDb.State)
    requires BillingDb.Inv(bill)
    ensures BillMoves(bill, bill)
  {
    hide BillingDb.Inv;
  }

  lemma DatabaseStepKeeps(s: State, a: Action)
    requires Inv(s) && Enabled(s, a) && (a.Api? || a.WorkerDb?)
    ensures Inv(Do(s, a))
  {
    hide BillingDb.Inv, BillingDb.Enabled, BillingDb.Do, ListsOk, Bag, Covered, ToEntry, FromEntry;
    var s' := Do(s, a);
    BillStep(s.bill, a.a);
    if a.Api? {
      ApiFrames(s.bill, a.a, WORKER);
    } else if WORKER in s.bill.txns {
      WorkerDbFrames(s.bill, a.a);
    } else {
      NoTxnNoStep(s.bill, a.a);
    }
    SameLists(s, s');
  }

  lemma NoTxnNoStep(bill: BillingDb.State, a: BillingDb.Action)
    requires BillingDb.Enabled(bill, a) && Owns(a, WORKER) && !a.Begin?
    ensures WORKER in bill.txns
  {
  }

  lemma WorkerStepKeeps(s: State, a: Action)
    requires Inv(s) && Enabled(s, a)
    requires || a.Start? || a.RecoverDone? || a.PollEmpty? || a.BeginApply? || a.HandleOther? || a.Return? || a.Raise?
             || a.FailureRecorded? || a.RedisError? || a.Crash?
    ensures Inv(Do(s, a))
  {
    hide BillingDb.Inv, ListsOk, Bag, Covered, ToEntry, FromEntry, Dropped, Opening;
    var s' := Do(s, a);
    StutterBill(s.bill);
    DropStep(s.bill);
    if a.BeginApply? {
      OpenStep(s.bill, BillingDb.Processing(NamedEvent(s.worker.job).value, BillingDb.Waiting));
    } else if a.Raise? {
      OpenStep(Dropped(s.bill), BillingDb.Marking(NamedEvent(s.worker.job).value, None));
    } else if a.Return? {
      DoneIsProcessed(s.bill, s.bill.txns[WORKER].event);
    }
    SameLists(s, s');
  }

  lemma PushKeeps(s: State, job: Job, s': State)
    requires Inv(s) && BillMoves(s.bill, s'.bill) && job.id !in s.issued
    requires s'.lists == Enqueued(s.lists, job) && s'.issued == s.issued + {job.id} && s'.acked == s.acked
    requires s'.worker == s.worker
    requires WORKER in s'.bill.txns <==> WORKER in s.bill.txns
    requires WORKER in s.bill.txns ==> s'.bill.txns[WORKER] == s.bill.txns[WORKER]
    requires forall event | event in s'.accepted :: event in s.accepted || Names(FromEntry(ToEntry(job)), event)
    ensures Inv(s')
  {
    hide BillingDb.Inv, ToEntry, FromEntry, NamedEvent;
    EncodeDecode(job);
    BagConcat([ToEntry(job)], s.lists.waiting, FromEntry);
    assert multiset(s'.issued) == multiset(s.issued) + multiset{job.id};
    forall event | event in s'.accepted ensures Covered(s', event) {
      if event in s.accepted {
        assert Covered(s, event);
      } else {
        assert ToEntry(job) in s'.lists.waiting;
      }
    }
  }

  lemma AnswerKeeps(s: State, a: Action)
    requires Inv(s) && Enabled(s, a) && (a.Enqueue? || a.AnswerDuplicate? || a.EnqueueOther?)
    ensures Inv(Do(s, a))
  {
    hide BillingDb.Inv, BillingDb.Do, ListsOk, Bag, Covered, Conserved, WorkerOk, WebhookJob;
    var s' := Do(s, a);
    StutterBill(s.bill);
    if a.EnqueueOther? {
      PushKeeps(s, a.job, s');
    } else {
      var event := s.bill.txns[a.t].store.id;
      BillStep(s.bill, BillingDb.End(a.t));
      ApiFrames(s.bill, BillingDb.End(a.t), WORKER);
      if a.Enqueue? {
        WebhookEntry(a.id, event, a.createdAt);
        WebhookJobId(a.id, event, a.createdAt);
        PushKeeps(s, WebhookJob(a.id, event, a.createdAt), s');
      } else {
        SeenIsProcessed(s.bill, a.t);
        DuplicateKeeps(s, s', event);
      }
    }
  }

  lemma WebhookJobId(id: string, event: EventId, createdAt: string)
    ensures WebhookJob(id, event, createdAt).id == id
  {
  }

  lemma SeenIsProcessed(bill: BillingDb.State, t: BillingDb.TxnId)
    requires BillingDb.Inv(bill) && t in bill.txns && bill.txns[t].Storing? && bill.txns[t].store.Stored?
    requires bill.txns[t].store.seen.Processed?
    ensures bill.txns[t].store.id in bill.db.events && bill.db.events[bill.txns[t].store.id].status.Processed?
  {
    hide BillingDb.DbOk;
    assert BillingDb.TxnOk(bill, t);
  }

  lemma DuplicateKeeps(s: State, s': State, event: EventId)
    requires Inv(s) && BillMoves(s.bill, s'.bill) && IsProcessed(s, event)
    requires s' == s.(bill := s'.bill, accepted := s.accepted + {event})
    requires WORKER in s'.bill.txns <==> WORKER in s.bill.txns
    requires WORKER in s.bill.txns ==> s'.bill.txns[WORKER] == s.bill.txns[WORKER]
    ensures Inv(s')
  {
    hide BillingDb.Inv, ListsOk, Bag, ToEntry, FromEntry, NamedEvent, Covered;
    SameLists(s, s'.(accepted := s.accepted));
    CoveredFrame(s'.(accepted := s.accepted), s');
    ProcessedCovers(s', event);
  }

  lemma ProcessedCovers(s: State, event: EventId)
    requires IsProcessed(s, event)
    ensures Covered(s, event)
  {
  }

  lemma CoveredFrame(s: State, s': State)
    requires s'.bill == s.bill && s'.lists == s.lists
    ensures forall event :: Covered(s', event) == Covered(s, event)
  {
  }

  /** Moving an entry between the waiting and the in-flight list. */
  lemma MoveKeeps(s: State, a: Action)
    requires Inv(s) && Enabled(s, a) && (a.RecoverOne? || a.Dequeue?)
    ensures Inv(Do(s, a))
  {
    hide BillingDb.Inv, Bag, Names, ToEntry, FromEntry, Taken, Returned;
    var s' := Do(s, a);
    if a.Dequeue? {
      TakenBags(s.lists);
      TakenHead(s.lists);
      assert IsJobEntry(s.lists.waiting[|s.lists.waiting| - 1]);
      assert s'.lists.processing[0] in s'.lists.processing;
    } else {
      ReturnedBags(s.lists);
      ReturnedDead(s.lists);
    }
    forall event | event in s'.accepted ensures Covered(s', event) {
      assert Covered(s, event);
    }
  }

  lemma TakenHead(l: Lists)
    requires l.waiting != []
    ensures Taken(l).processing != [] && Taken(l).processing[0] == l.waiting[|l.waiting| - 1]
    ensures Taken(l).dead == l.dead
  {
  }

  lemma ReturnedDead(l: Lists)
    requires l.processing != []
    ensures Returned(l).dead == l.dead
  {
  }

  /** Settling a job: its own entry leaves the in-flight list; whatever it named is still covered. */
  lemma AcknowledgeKeeps(s: State)
    requires Inv(s) && Enabled(s, Acknowledge)
    ensures Inv(Do(s, Acknowledge))
  {
    hide BillingDb.Inv, Bag, ToEntry, FromEntry, RemoveFirst, NamedEvent;
    var s', job := Do(s, Acknowledge), s.worker.job;
    var e := ToEntry(job);
    BagRemove(s.lists.processing, e, FromEntry);
    RemoveMembers(s.lists.processing, e);
    IdIsFree(s, e);
    assert multiset(s'.acked) == multiset(s.acked) + multiset{job.id};
    forall event | event in s'.accepted ensures Covered(s', event) {
      assert Covered(s, event);
    }
  }

  /** A job in flight has not been acknowledged. */
  lemma IdIsFree(s: State, e: Json)
    requires Conserved(s) && e in s.lists.processing && FromEntry(e).Some?
    ensures FromEntry(e).value.id !in s.acked
  {
    hide Bag, FromEntry, RemoveFirst;
    BagRemove(s.lists.processing, e, FromEntry);
    var id := FromEntry(e).value.id;
    assert multiset(s.issued)[id] <= 1;
  }

  lemma SettleKeeps(s: State, mark: Mark)
    requires Inv(s) && Enabled(s, Settle(mark))
    ensures Inv(Do(s, Settle(mark)))
  {
    hide BillingDb.Inv, Bag, ToEntry, FromEntry, RemoveFirst, NamedEvent, DeadLetter, DeadJob, NextAttempt;
    var s', job := Do(s, Settle(mark)), s.worker.job;
    var e := ToEntry(job);
    BagRemove(s.lists.processing, e, FromEntry);
    RemoveMembers(s.lists.processing, e);
    if job.attempt >= s.maxAttempts {
      var letter := DeadLetter(job, mark.failedAt, mark.error);
      DeadLetterNames(job, mark.failedAt, mark.error);
      BagConcat([letter], s.lists.dead, DeadJob);
      SingleBag(letter, DeadJob);
      assert letter in s'.lists.dead;
    } else {
      var next := ToEntry(NextAttempt(job));
      RetryEntry(e);
      NextKeepsName(job);
      BagConcat([next], s.lists.waiting, FromEntry);
      SingleBag(next, FromEntry);
      assert next in s'.lists.waiting;
    }
    forall event | event in s'.accepted ensures Covered(s', event) {
      assert Covered(s, event);
    }
  }

  lemma SingleBag(e: Json, job: Json -> Option<Job>)
    ensures Bag([e], job) == if job(e).Some? then multiset{job(e).value.id} else multiset{}
  {
    assert [e][1..] == [];
  }

  lemma NextKeepsName(job: Job)
    ensures NextAttempt(job).id == job.id && NamedEvent(NextAttempt(job)) == NamedEvent(job)
  {
  }

  lemma StepKeeps(s: State, a: Action)
    requires Inv(s) && Enabled(s, a)
    ensures Inv(Do(s, a))
  {
    hide Inv, Enabled, Do;
    match a
    case Api(_) => DatabaseStepKeeps(s, a);
    case WorkerDb(_) => DatabaseStepKeeps(s, a);
    case Enqueue(_, _, _, _) => AnswerKeeps(s, a);
    case AnswerDuplicate(_) => AnswerKeeps(s, a);
    case EnqueueOther(_) => AnswerKeeps(s, a);
    case RecoverOne => MoveKeeps(s, a);
    case Dequeue => MoveKeeps(s, a);
    case Settle(mark) => SettleKeeps(s, mark);
    case Acknowledge => AcknowledgeKeeps(s);
    case _ => WorkerStepKeeps(s, a);
  }

  lemma InitEstablishes(s: State)
    requires Init(s)
    ensures Inv(s)
  {
    hide BillingDb.Inv;
    BillingDb.InitEstablishes(s.bill);
  }

  lemma {:induction false} RunKeeps(s: State, run: seq<Action>)
    requires Inv(s) && ValidRun(s, run)
    ensures Inv(After(s, run))
    ensures s.accepted <= After(s, run).accepted && s.issued <= After(s, run).issued
    decreases |run|
  {
    hide Inv, Enabled;
    if run != [] {
      StepKeeps(s, run[0]);
      RunKeeps(Do(s, run[0]), run[1..]);
    }
  }

  // ----- Main results -----

  /** No accepted webhook is lost: once a delivery has been answered, then after any further
      deliveries, worker steps, errors, crashes and restarts, its event is PROCESSED or a job
      naming it is waiting, in flight or dead-lettered. */
  lemma NoAcceptedWebhookIsLost(s: State, run: seq<Action>, later: seq<Action>, event: EventId)
    requires Init(s) && ValidRun(s, run) && ValidRun(After(s, run), later)
    requires event in After(s, run).accepted
    ensures Covered(After(After(s, run), later), event)
  {
    hide Covered, BillingDb.Inv, Enabled, Do, Init;
    InitEstablishes(s);
    RunKeeps(s, run);
    RunKeeps(After(s, run), later);
  }

  /** Job conservation: in every run, each enqueued job id is in exactly one place: waiting, in
      flight, dead or acknowledged. No other id is anywhere. */
  lemma JobConservation(s: State, run: seq<Action>, id: string)
    requires Init(s) && ValidRun(s, run)
    ensures var s' := After(s, run);
      Bag(s'.lists.waiting, FromEntry)[id] + Bag(s'.lists.processing, FromEntry)[id] + Bag(s'.lists.dead, DeadJob)[id]
      + (if id in s'.acked then 1 else 0) == if id in s'.issued then 1 else 0
  {
    hide Covered, BillingDb.Inv, Enabled, Do, Init, Bag;
    InitEstablishes(s);
    RunKeeps(s, run);
    var s' := After(s, run);
    assert multiset(s'.acked)[id] == if id in s'.acked then 1 else 0;
    assert multiset(s'.issued)[id] == if id in s'.issued then 1 else 0;
  }

  /** When the worker settles its job, exactly that entry leaves the in-flight list: no entry of
      the job is left there, and every other entry is. */
  lemma SettlesOwnEntryOnly(s: State, a: Action)
    requires Inv(s) && Enabled(s, a) && (a.Acknowledge? || a.Settle?)
    ensures var s', job := Do(s, a), s.worker.job;
      && ToEntry(job) in s.lists.processing && ToEntry(job) !in s'.lists.processing
      && forall e | e != ToEntry(job) :: e in s'.lists.processing <==> e in s.lists.processing
  {
    hide BillingDb.Inv, Covered, Bag, ToEntry, FromEntry, RemoveFirst, DeadLetter, NextAttempt;
    var e := ToEntry(s.worker.job);
    var left := RemoveFirst(s.lists.processing, e);
    RemoveMembers(s.lists.processing, e);
    BagRemove(s.lists.processing, e, FromEntry);
    assert multiset(s.issued)[s.worker.job.id] <= 1;
    if e in left {
      BagRemove(left, e, FromEntry);
    }
  }

  /** Exactly-once effect across crashes, restarts and re-delivery. */
  lemma PipelineExactlyOnce(s: State, run: seq<Action>, event: EventId)
    requires Init(s) && ValidRun(s, run)
    ensures BillingDb.Count(After(s, run).bill.db.log, event) == if IsProcessed(After(s, run), event) then 1 else 0
  {
    hide Covered, Enabled, Do, Init, BillingDb.Count, BillingDb.OrgOk;
    InitEstablishes(s);
    RunKeeps(s, run);
  }

  // ----- Progress: the undisturbed worker applies what it takes -----

  function ApplyLocked(now: Instant): seq<Action> {
    [WorkerDb(BillingDb.LockEvent(WORKER)), WorkerDb(BillingDb.LockOrg(WORKER, now)),
     WorkerDb(BillingDb.Commit(WORKER, now))]
  }

  lemma {:induction false} RunConcat(s: State, run: seq<Action>, more: seq<Action>)
    requires ValidRun(s, run) && ValidRun(After(s, run), more)
    ensures ValidRun(s, run + more) && After(s, run + more) == After(After(s, run), more)
    decreases |run|
  {
    hide Enabled, Do;
    if run == [] {
      assert run + more == more;
    } else {
      assert (run + more)[1..] == run[1..] + more;
      RunConcat(Do(s, run[0]), run[1..], more);
    }
  }

  lemma RunOfOne(s: State, a: Action)
    requires Enabled(s, a)
    ensures ValidRun(s, [a]) && After(s, [a]) == Do(s, a)
  {
    hide Enabled, Do;
    assert [a][1..] == [];
    assert ValidRun(Do(s, a), []);
  }

  lemma RunOfTwo(s: State, a: Action, b: Action)
    requires Enabled(s, a) && Enabled(Do(s, a), b)
    ensures ValidRun(s, [a, b]) && After(s, [a, b]) == Do(Do(s, a), b)
  {
    hide Enabled, Do, ValidRun, After;
    RunOfOne(s, a);
    RunOfOne(Do(s, a), b);
    RunConcat(s, [a], [b]);
    assert [a] + [b] == [a, b];
  }

  /** A legal application of `event`: its rows are unlocked and the change goes through. */
  ghost predicate Applicable(bill: BillingDb.State, event: EventId, now: Instant) {
    && event in bill.db.events && BillingDb.EventLock(event) !in bill.locks
    && var row := bill.db.events[event];
       !row.status.Processed? && BillingDb.CanLockOrg(bill, row.details.org) && Outcome(bill, event, now).Some?
  }

  function Outcome(bill: BillingDb.State, event: EventId, now: Instant): Option<BillingDb.Subscription>
    requires event in bill.db.events
  {
    var row := bill.db.events[event];
    BillingDb.Apply(BillingDb.OrDefault(BillingDb.SubOf(bill.db, row.details.org), now), row.kind, row.details, now)
  }

  lemma TakeSteps(s: State, event: EventId)
    requires Inv(s) && s.worker.Ready? && s.lists.waiting != []
    requires Names(FromEntry(s.lists.waiting[|s.lists.waiting| - 1]), event)
    ensures var job := FromEntry(s.lists.waiting[|s.lists.waiting| - 1]).value;
      && ValidRun(s, [Dequeue, BeginApply])
      && After(s, [Dequeue, BeginApply]) == s.(
           bill := Opening(s.bill, BillingDb.Processing(event, BillingDb.Waiting)),
           lists := Taken(s.lists), worker := Applying(job))
  {
    hide BillingDb.Inv, Bag, Covered, FromEntry, NamedEvent, Opening;
    RunOfTwo(s, Dequeue, BeginApply);
  }

  function EventTaken(bill: BillingDb.State, event: EventId): BillingDb.State
    requires event in bill.db.events
  {
    BillingDb.Take(bill, WORKER, BillingDb.Processing(event, BillingDb.HasEvent(bill.db.events[event])),
        BillingDb.EventLock(event))
  }

  function SubscriptionTaken(bill: BillingDb.State, event: EventId, now: Instant): BillingDb.State
    requires event in bill.db.events
  {
    var row := bill.db.events[event];
    var read := BillingDb.Loaded(BillingDb.OrDefault(BillingDb.SubOf(bill.db, row.details.org), now), now);
    BillingDb.Take(bill, WORKER, BillingDb.Processing(event, BillingDb.HasSub(row, read)),
        BillingDb.OrgLock(row.details.org))
  }

  lemma TakeEvent(bill: BillingDb.State, event: EventId, now: Instant)
    requires Applicable(bill, event, now)
    requires WORKER in bill.txns && bill.txns[WORKER] == BillingDb.Processing(event, BillingDb.Waiting)
    ensures BillingDb.Enabled(bill, BillingDb.LockEvent(WORKER))
    ensures BillingDb.Do(bill, BillingDb.LockEvent(WORKER)) == EventTaken(bill, event)
  {
    hide BillingDb.Apply, BillingDb.DefaultSubscription;
  }

  lemma TakeSubscription(bill: BillingDb.State, event: EventId, now: Instant)
    requires Applicable(bill, event, now)
    ensures BillingDb.Enabled(EventTaken(bill, event), BillingDb.LockOrg(WORKER, now))
    ensures BillingDb.Do(EventTaken(bill, event), BillingDb.LockOrg(WORKER, now))
        == SubscriptionTaken(EventTaken(bill, event), event, now)
  {
    hide BillingDb.Apply, BillingDb.DefaultSubscription;
  }

  lemma CommitApplied(bill: BillingDb.State, event: EventId, now: Instant)
    requires event in bill.db.events && Outcome(bill, event, now).Some?
    ensures var before, a := SubscriptionTaken(bill, event, now), BillingDb.Commit(WORKER, now);
      && BillingDb.Enabled(before, a)
      && AppliedIn(BillingDb.Do(before, a), event, bill.db.events[event].details.org, Outcome(bill, event, now).value)
  {
    hide BillingDb.Apply, BillingDb.DefaultSubscription, BillingDb.Unlocked;
  }

  /** The worker's transaction is committed: the event is PROCESSED, the subscription is `sub`. */
  predicate AppliedIn(bill: BillingDb.State, event: EventId, org: BillingDb.OrgId, sub: BillingDb.Subscription) {
    && WORKER in bill.txns && bill.txns[WORKER] == BillingDb.Processing(event, BillingDb.Done)
    && event in bill.db.events && bill.db.events[event].status.Processed?
    && org in bill.db.subscriptions && bill.db.subscriptions[org] == sub
  }

  lemma WorkerDbStep(s: State, a: BillingDb.Action)
    requires s.worker.Applying? || s.worker.Recording?
    requires Owns(a, WORKER) && !a.Begin? && !a.End? && BillingDb.Enabled(s.bill, a)
    ensures Enabled(s, WorkerDb(a)) && Do(s, WorkerDb(a)) == s.(bill := BillingDb.Do(s.bill, a))
  {
    hide BillingDb.Enabled, BillingDb.Do;
  }

  /** The database part: lock the event, lock the organization, commit. */
  lemma DatabaseSteps(s: State, before: BillingDb.State, event: EventId, now: Instant)
    requires WORKER !in before.txns && Applicable(before, event, now) && s.worker.Applying?
    requires s.bill == Opening(before, BillingDb.Processing(event, BillingDb.Waiting))
    ensures ValidRun(s, ApplyLocked(now))
    ensures var s' := After(s, ApplyLocked(now));
      && s' == s.(bill := s'.bill)
      && AppliedIn(s'.bill, event, before.db.events[event].details.org, Outcome(before, event, now).value)
  {
    OpeningApplicable(before, event, now);
    hide BillingDb.Enabled, BillingDb.Do, Enabled, Do, ValidRun, After, AppliedIn, Opening, Applicable, Outcome;
    var a, b, c := BillingDb.LockEvent(WORKER), BillingDb.LockOrg(WORKER, now), BillingDb.Commit(WORKER, now);
    TakeEvent(s.bill, event, now);
    var b2 := EventTaken(s.bill, event);
    TakeSubscription(s.bill, event, now);
    var b3 := SubscriptionTaken(b2, event, now);
    OutcomeFrame(s.bill, b2, event, now);
    CommitApplied(b2, event, now);
    WorkerDbStep(s, a);
    WorkerDbStep(s.(bill := b2), b);
    WorkerDbStep(s.(bill := b3), c);
    RunOfTwo(s, WorkerDb(a), WorkerDb(b));
    RunOfOne(s.(bill := b3), WorkerDb(c));
    RunConcat(s, [WorkerDb(a), WorkerDb(b)], [WorkerDb(c)]);
    assert ApplyLocked(now) == [WorkerDb(a), WorkerDb(b)] + [WorkerDb(c)];
  }

  lemma OpeningApplicable(before: BillingDb.State, event: EventId, now: Instant)
    requires WORKER !in before.txns && Applicable(before, event, now)
    ensures var bill := Opening(before, BillingDb.Processing(event, BillingDb.Waiting));
      && bill.db == before.db && Applicable(bill, event, now)
      && Outcome(bill, event, now) == Outcome(before, event, now)
      && WORKER in bill.txns && bill.txns[WORKER] == BillingDb.Processing(event, BillingDb.Waiting)
      && Outcome(before, event, now).Some?
  {
    hide BillingDb.Apply, BillingDb.DefaultSubscription;
  }

  lemma OutcomeFrame(bill: BillingDb.State, bill': BillingDb.State, event: EventId, now: Instant)
    requires bill'.db == bill.db && event in bill.db.events
    ensures Outcome(bill', event, now) == Outcome(bill, event, now)
  {
  }

  lemma FinishSteps(s: State, event: EventId)
    requires s.worker.Applying?
    requires WORKER in s.bill.txns && s.bill.txns[WORKER] == BillingDb.Processing(event, BillingDb.Done)
    ensures ValidRun(s, [Return, Acknowledge])
    ensures After(s, [Return, Acknowledge]) == s.(
      bill := Dropped(s.bill), worker := Ready,
      lists := Acknowledged(s.lists, s.worker.job), acked := s.acked + {s.worker.job.id})
    ensures Dropped(s.bill).db == s.bill.db
  {
    RunOfTwo(s, Return, Acknowledge);
  }

  /** From every reachable state with an idle worker: if the next entry names an unprocessed event
      whose rows are unlocked and whose change is legal, seven steps apply it, mark it PROCESSED
      and take exactly that entry out of the queue. */
  lemma WorkerAppliesNextEntry(s: State, event: EventId, now: Instant)
    requires Inv(s) && s.worker.Ready? && s.lists.waiting != [] && Applicable(s.bill, event, now)
    requires Names(FromEntry(s.lists.waiting[|s.lists.waiting| - 1]), event)
    ensures var run := [Dequeue, BeginApply] + ApplyLocked(now) + [Return, Acknowledge];
      var org := s.bill.db.events[event].details.org;
      && ValidRun(s, run)
      && IsProcessed(After(s, run), event) && After(s, run).worker == Ready
      && After(s, run).lists == s.lists.(waiting := s.lists.waiting[..|s.lists.waiting| - 1])
      && org in After(s, run).bill.db.subscriptions
      && Some(After(s, run).bill.db.subscriptions[org]) == Outcome(s.bill, event, now)
  {
    assert Outcome(s.bill, event, now).Some?;
    hide BillingDb.Inv, BillingDb.Do, Bag, Covered, Acknowledged, Taken, Dropped, Opening, ToEntry, FromEntry,
         NamedEvent, Applicable, Outcome, ApplyLocked, Enabled, Do, ValidRun, After;
    var first, rest := [Dequeue, BeginApply], [Return, Acknowledge];
    TakeSteps(s, event);
    var s2 := After(s, first);
    DatabaseSteps(s2, s.bill, event, now);
    var s5 := After(s2, ApplyLocked(now));
    FinishSteps(s5, event);
    assert IsJobEntry(s.lists.waiting[|s.lists.waiting| - 1]);
    SettlesWhatWasTaken(s.lists);
    RunConcat(s, first, ApplyLocked(now));
    RunConcat(s, first + ApplyLocked(now), rest);
  }

  // ----- The worker of the pipeline is the worker -----

  /** What happens while the worker has a job, short of an error of Redis or a crash: the handler,
      other transactions and deliveries of known events. No list changes. */
  predicate HandlerStep(a: Action) {
    || a.Api? || a.AnswerDuplicate? || a.BeginApply? || a.HandleOther? || a.WorkerDb?
    || a.Return? || a.Raise? || a.FailureRecorded?
  }

  lemma {:induction false} HandlerKeepsLists(s: State, run: seq<Action>)
    requires HasJob(s.worker) && ValidRun(s, run) && forall a | a in run :: HandlerStep(a)
    ensures After(s, run).lists == s.lists && After(s, run).maxAttempts == s.maxAttempts
    ensures HasJob(After(s, run).worker) && After(s, run).worker.job == s.worker.job
    decreases |run|
  {
    hide BillingDb.Enabled, BillingDb.Do, Dropped, Opening, NamedEvent;
    if run != [] {
      assert HandlerStep(run[0]);
      HandlerKeepsLists(Do(s, run[0]), run[1..]);
    }
  }

  /** Taking a job, running its handler, however other transactions interleave, and settling it
      changes the lists as one poll of `Workers` does. */
  lemma PollActsAsOnce(s: State, handling: seq<Action>, last: Action, mark: Mark,
                       cfg: Workers.Settings, h: Workers.Handlers, shift: Workers.Shift)
    requires Enabled(s, Dequeue) && ValidRun(Do(s, Dequeue), handling) && forall a | a in handling :: HandlerStep(a)
    requires Enabled(After(Do(s, Dequeue), handling), last) && (last == Acknowledge || last == Settle(mark))
    requires Workers.Accepted(cfg) && cfg.maxAttempts == s.maxAttempts && shift.lists == s.lists
    requires Workers.Result(cfg, h, shift) == Workers.Handled
    requires Workers.Raises(h, |shift.log|, Do(s, Dequeue).worker.job) <==> last == Settle(mark)
    ensures Do(After(Do(s, Dequeue), handling), last).lists == Workers.Once(cfg, h, mark, shift).lists
    ensures Do(After(Do(s, Dequeue), handling), last).worker == Ready
  {
    HandlerKeepsLists(Do(s, Dequeue), handling);
    hide ValidRun, After, BillingDb.Enabled, BillingDb.Do, FromEntry, ToEntry, Acknowledged, Buried, Retried, Taken,
         Workers.Raises, Workers.Delay;
  }

  /** No crash, no error of Redis, no new job. */
  predicate Calm(a: Action) {
    HandlerStep(a) || a.Dequeue? || a.PollEmpty? || a.Settle? || a.Acknowledge?
  }

  function Takes(run: seq<Action>): nat {
    if run == [] then 0 else (if run[0].Dequeue? then 1 else 0) + Takes(run[1..])
  }

  /** The summed retry budgets of the waiting entries, and what is left of the job in hand. */
  function Budget(cfg: Workers.Settings, s: State): nat {
    Workers.Backlog(cfg, s.lists.waiting) + if HasJob(s.worker) then Workers.JobWeight(cfg, s.worker.job) - 1 else 0
  }

  lemma CalmStepSpends(cfg: Workers.Settings, s: State, a: Action)
    requires cfg.maxAttempts == s.maxAttempts && Enabled(s, a) && Calm(a) && (s.worker.Ready? || HasJob(s.worker))
    ensures var s' := Do(s, a);
      && Budget(cfg, s') + (if a.Dequeue? then 1 else 0) <= Budget(cfg, s)
      && s'.maxAttempts == s.maxAttempts && (s'.worker.Ready? || HasJob(s'.worker))
  {
    hide BillingDb.Enabled, BillingDb.Do, Dropped, Opening, NamedEvent, FromEntry, ToEntry, RemoveFirst, DeadLetter,
         Workers.JobWeight;
    if HandlerStep(a) {
      assert Do(s, a).lists == s.lists;
    } else if a.Settle? {
      RetrySpends(cfg, s.worker.job, s.lists.waiting);
    }
  }

  lemma RetrySpends(cfg: Workers.Settings, job: Job, waiting: seq<Json>)
    ensures job.attempt < cfg.maxAttempts ==>
      Workers.Backlog(cfg, [ToEntry(NextAttempt(job))] + waiting) == Workers.JobWeight(cfg, job) - 1
          + Workers.Backlog(cfg, waiting)
  {
    hide FromEntry, ToEntry;
    Workers.BacklogPush(cfg, ToEntry(NextAttempt(job)), waiting);
    EncodeDecode(NextAttempt(job));
  }

  /** The retry budget holds of the crash machine: in every stretch without crashes, errors of
      Redis and new jobs, the worker takes at most as many jobs as the budget at its start allows. */
  lemma {:induction false} CalmStretchWithinBudget(cfg: Workers.Settings, s: State, run: seq<Action>)
    requires cfg.maxAttempts == s.maxAttempts && ValidRun(s, run) && (forall a | a in run :: Calm(a))
    requires s.worker.Ready? || HasJob(s.worker)
    ensures Budget(cfg, After(s, run)) + Takes(run) <= Budget(cfg, s)
    decreases |run|
  {
    hide Enabled, Do, Budget, Calm;
    if run != [] {
      CalmStepSpends(cfg, s, run[0]);
      CalmStretchWithinBudget(cfg, Do(s, run[0]), run[1..]);
    }
  }

  // ----- Drained queues -----

  /** What is in flight is the worker's own entry, as after a recovery. */
  predicate CarriesOwnEntry(s: State) {
    && (s.worker.Ready? || HasJob(s.worker))
    && s.lists.processing == if HasJob(s.worker) then [ToEntry(s.worker.job)] else []
  }

  lemma CalmStepCarries(s: State, a: Action)
    requires Inv(s) && Enabled(s, a) && Calm(a) && CarriesOwnEntry(s)
    ensures CarriesOwnEntry(Do(s, a))
  {
    hide BillingDb.Inv, BillingDb.Enabled, BillingDb.Do, Dropped, Opening, NamedEvent, FromEntry, ToEntry, DeadLetter,
         Bag, Covered;
    if a.Dequeue? {
      assert IsJobEntry(s.lists.waiting[|s.lists.waiting| - 1]);
    }
  }

  /** With nothing waiting or in flight, every accepted event is PROCESSED or dead-lettered. */
  lemma DrainedMeansSettled(s: State, run: seq<Action>, event: EventId)
    requires Init(s) && ValidRun(s, run) && event in After(s, run).accepted
    requires After(s, run).lists.waiting == [] && After(s, run).lists.processing == []
    ensures IsProcessed(After(s, run), event)
         || exists e :: e in After(s, run).lists.dead && Names(DeadJob(e), event)
  {
    hide BillingDb.Inv, Enabled, Do, Init;
    NoAcceptedWebhookIsLost(s, run, [], event);
  }

  /** How often the worker polls the queue, whether it finds a job or not. */
  function Polls(run: seq<Action>): nat {
    if run == [] then 0 else (if run[0].Dequeue? || run[0].PollEmpty? then 1 else 0) + Polls(run[1..])
  }

  predicate Drained(s: State) {
    s.worker.Ready? && s.lists.waiting == [] && s.lists.processing == []
  }

  /** Without new jobs, an empty queue stays empty. */
  lemma {:induction false} CalmStaysDrained(s: State, run: seq<Action>)
    requires Drained(s) && ValidRun(s, run) && forall a | a in run :: Calm(a)
    ensures Drained(After(s, run))
    decreases |run|
  {
    hide BillingDb.Enabled, BillingDb.Do;
    if run != [] {
      assert Calm(run[0]);
      CalmStaysDrained(Do(s, run[0]), run[1..]);
    }
  }

  /** As many polls as the budget allows drain the queue, however early the jobs succeed. */
  lemma {:induction false} CalmPollsDrain(cfg: Workers.Settings, s: State, run: seq<Action>)
    requires Inv(s) && cfg.maxAttempts == s.maxAttempts && CarriesOwnEntry(s)
    requires ValidRun(s, run) && (forall a | a in run :: Calm(a)) && Polls(run) >= Budget(cfg, s)
    requires After(s, run).worker.Ready?
    ensures Drained(After(s, run))
    decreases |run|
  {
    hide Inv, Enabled, Do, Calm, Budget;
    if run == [] {
      NoBudgetMeansEmpty(cfg, s);
    } else if run[0].PollEmpty? {
      PolledEmpty(s);
      CalmStaysDrained(s, run);
    } else {
      CalmStepSpends(cfg, s, run[0]);
      CalmStepCarries(s, run[0]);
      StepKeeps(s, run[0]);
      CalmPollsDrain(cfg, Do(s, run[0]), run[1..]);
    }
  }

  lemma NoBudgetMeansEmpty(cfg: Workers.Settings, s: State)
    requires s.worker.Ready? && Budget(cfg, s) == 0
    ensures s.lists.waiting == []
  {
    hide FromEntry;
  }

  lemma PolledEmpty(s: State)
    requires CarriesOwnEntry(s) && Enabled(s, PollEmpty)
    ensures Drained(s)
  {
  }

  /** End to end: after any run, let the worker be idle with nothing in flight, as after a
      recovery. A stretch without crashes, errors of Redis and new jobs in which it polls as often
      as the retry budgets of the waiting entries allow, empty polls included, and comes to rest,
      leaves the queue empty and every event accepted so far PROCESSED or dead-lettered. */
  lemma CalmStretchSettlesAll(cfg: Workers.Settings, s: State, run: seq<Action>, later: seq<Action>, event: EventId)
    requires Init(s) && ValidRun(s, run) && cfg.maxAttempts == After(s, run).maxAttempts
    requires After(s, run).worker.Ready? && After(s, run).lists.processing == []
    requires ValidRun(After(s, run), later) && (forall a | a in later :: Calm(a))
    requires Polls(later) >= Workers.Backlog(cfg, After(s, run).lists.waiting)
    requires After(After(s, run), later).worker.Ready?
    requires event in After(After(s, run), later).accepted
    ensures var end := After(After(s, run), later);
      && end.lists.waiting == [] && end.lists.processing == []
      && (IsProcessed(end, event) || exists e :: e in end.lists.dead && Names(DeadJob(e), event))
  {
    hide Covered, BillingDb.Inv, Enabled, Do, Init, Inv, Calm, Polls, Names, IsProcessed;
    InitEstablishes(s);
    RunKeeps(s, run);
    CalmPollsDrain(cfg, After(s, run), later);
    RunConcat(s, run, later);
    DrainedMeansSettled(s, run + later, event);
  }

  // ----- First in, first out -----

  /** The entry a step puts into the waiting list: a new job, the next attempt, a recovered entry. */
  function PushedBy(s: State, a: Action): seq<Json>
    requires Enabled(s, a)
  {
    match a
    case Enqueue(t, id, createdAt, _) => [ToEntry(WebhookJob(id, s.bill.txns[t].store.id, createdAt))]
    case EnqueueOther(job) => [ToEntry(job)]
    case RecoverOne => [s.lists.processing[|s.lists.processing| - 1]]
    case Settle(_) => if s.worker.job.attempt < s.maxAttempts then [ToEntry(NextAttempt(s.worker.job))] else []
    case _ => []
  }

  function Pushed(s: State, run: seq<Action>): seq<Json>
    requires ValidRun(s, run)
    decreases |run|
  {
    if run == [] then [] else PushedBy(s, run[0]) + Pushed(Do(s, run[0]), run[1..])
  }

  function GotBy(s: State, a: Action): seq<Json>
    requires Enabled(s, a)
  {
    if a.Dequeue? then [s.lists.waiting[|s.lists.waiting| - 1]] else []
  }

  /** The entries of the jobs the worker gets, in order. */
  function Got(s: State, run: seq<Action>): seq<Json>
    requires ValidRun(s, run)
    decreases |run|
  {
    if run == [] then [] else GotBy(s, run[0]) + Got(Do(s, run[0]), run[1..])
  }

  lemma StepKeepsTurns(s: State, a: Action)
    requires Enabled(s, a)
    ensures Upcoming(s.lists) + PushedBy(s, a) == GotBy(s, a) + Upcoming(Do(s, a).lists)
  {
    hide BillingDb.Enabled, BillingDb.Do, Dropped, Opening, NamedEvent, FromEntry, ToEntry, Upcoming, Enqueued, Retried,
         Returned, Acknowledged, Buried, WebhookJob, NextAttempt;
    var other := Job("", "", [], 0, "");
    match a
    case Enqueue(t, id, createdAt, _) =>
      FirstInFirstOut(s.lists, WebhookJob(id, s.bill.txns[t].store.id, createdAt), Mark("", "", ""));
    case EnqueueOther(job) => FirstInFirstOut(s.lists, job, Mark("", "", ""));
    case RecoverOne => FirstInFirstOut(s.lists, other, Mark("", "", ""));
    case Settle(mark) => FirstInFirstOut(s.lists, s.worker.job, mark);
    case Acknowledge => FirstInFirstOut(s.lists, s.worker.job, Mark("", "", ""));
    case Dequeue => NextIsTaken(s.lists);
    case _ => assert Do(s, a).lists == s.lists;
  }

  lemma {:induction false} RunKeepsTurns(s: State, run: seq<Action>)
    requires ValidRun(s, run)
    ensures Upcoming(s.lists) + Pushed(s, run) == Got(s, run) + Upcoming(After(s, run).lists)
    decreases |run|
  {
    hide Enabled, Do, Upcoming, PushedBy, GotBy;
    if run != [] {
      StepKeepsTurns(s, run[0]);
      RunKeepsTurns(Do(s, run[0]), run[1..]);
      calc {
        Upcoming(s.lists) + Pushed(s, run);
        (Upcoming(s.lists) + PushedBy(s, run[0])) + Pushed(Do(s, run[0]), run[1..]);
        GotBy(s, run[0]) + (Upcoming(Do(s, run[0]).lists) + Pushed(Do(s, run[0]), run[1..]));
        Got(s, run) + Upcoming(After(s, run).lists);
      }
    }
  }

  /** In every run, with crashes and recoveries anywhere, the k-th job the worker gets is the k-th entry
      that was put into the queue, and the entries not yet taken are still to come in their order. */
  lemma FirstPushedFirstTaken(s: State, run: seq<Action>, k: nat)
    requires Init(s) && ValidRun(s, run)
    ensures Pushed(s, run) == Got(s, run) + Upcoming(After(s, run).lists)
    ensures k < |Got(s, run)| ==> Got(s, run)[k] == Pushed(s, run)[k]
  {
    assert Upcoming(s.lists) == [];
    hide Init, ValidRun, After, Upcoming, Pushed, Got;
    RunKeepsTurns(s, run);
    assert [] + Pushed(s, run) == Pushed(s, run);
  }

  // ----- Whole recoveries, deliveries and failures -----

  function Recovery(n: nat): seq<Action> {
    if n == 0 then [RecoverDone] else [RecoverOne] + Recovery(n - 1)
  }

  /** Recovery, run to its end: the in-flight entries stand before the waiting ones, both in order. */
  lemma {:induction false} RecoveryEnds(s: State)
    requires s.worker.Recovering?
    ensures ValidRun(s, Recovery(|s.lists.processing|))
    ensures After(s, Recovery(|s.lists.processing|))
         == s.(worker := Ready, lists := Lists(s.lists.processing + s.lists.waiting, [], s.lists.dead))
    decreases |s.lists.processing|
  {
    hide BillingDb.Enabled, BillingDb.Do, ValidRun, After;
    var n := |s.lists.processing|;
    if n == 0 {
      RunOfOne(s, RecoverDone);
      assert s.lists.processing + s.lists.waiting == s.lists.waiting;
    } else {
      var s' := Do(s, RecoverOne);
      RecoveryEnds(s');
      RunOfOne(s, RecoverOne);
      RunConcat(s, [RecoverOne], Recovery(n - 1));
      assert s'.lists.processing + s'.lists.waiting == s.lists.processing + s.lists.waiting;
    }
  }

  /** A repeated delivery puts a job into the queue if and only if the stored event is not PROCESSED,
      and is otherwise answered without one. */
  lemma RedeliveryEnqueuesIff(s: State, t: BillingDb.TxnId, externalId: string, kind: BillingDb.Kind,
      details: BillingDb.Details, event: EventId, id: string, createdAt: string)
    requires t != WORKER && t !in s.bill.txns && id !in s.issued && event != ""
    requires event in s.bill.db.events && s.bill.db.events[event].externalId == externalId
    ensures var run := [Api(BillingDb.Begin(t, BillingDb.Storing(externalId, kind, details, BillingDb.Asking))),
                        Api(BillingDb.Lookup(t, event))];
      && ValidRun(s, run)
      && var asked, push, skip := After(s, run), Enqueue(t, id, createdAt, true), AnswerDuplicate(t);
         && (Enabled(asked, push) <==> s.bill.db.events[event].status != BillingDb.Processed)
         && (Enabled(asked, skip) <==> s.bill.db.events[event].status == BillingDb.Processed)
         && (Enabled(asked, push) ==>
               && Do(asked, push).lists.waiting == [ToEntry(WebhookJob(id, event, createdAt))] + s.lists.waiting
               && Do(asked, push).accepted == s.accepted + {event} && Do(asked, push).bill.db == s.bill.db)
         && (Enabled(asked, skip) ==>
               && Do(asked, skip).lists == s.lists && Do(asked, skip).issued == s.issued
               && Do(asked, skip).accepted == s.accepted + {event} && Do(asked, skip).bill.db == s.bill.db)
  {
    hide ToEntry, WebhookJob, BillingDb.CommitDb, BillingDb.Unlocked;
    RunOfTwo(s, Api(BillingDb.Begin(t, BillingDb.Storing(externalId, kind, details, BillingDb.Asking))),
      Api(BillingDb.Lookup(t, event)));
  }

  function FailureRun(now: Instant): seq<Action> {
    [Raise, WorkerDb(BillingDb.LockEvent(WORKER))] + [WorkerDb(BillingDb.Commit(WORKER, now)), FailureRecorded]
  }

  lemma MarkingSteps(bill: BillingDb.State, event: EventId, now: Instant)
    requires WORKER !in bill.txns && event in bill.db.events && BillingDb.EventLock(event) !in bill.locks
    ensures var open := Opening(bill, BillingDb.Marking(event, None));
      && WORKER in open.txns && open.txns[WORKER] == BillingDb.Marking(event, None)
      && BillingDb.Enabled(open, BillingDb.LockEvent(WORKER))
      && var held := BillingDb.Do(open, BillingDb.LockEvent(WORKER));
         && BillingDb.Enabled(held, BillingDb.Commit(WORKER, now))
         && var row, end := bill.db.events[event], BillingDb.Do(held, BillingDb.Commit(WORKER, now));
            && WORKER !in end.txns
            && end.db == bill.db.(events := bill.db.events[event :=
                 row.(status := if row.status.Processed? then BillingDb.Processed else BillingDb.Failed)])
  {
    hide BillingDb.Unlocked;
    assert bill.db.events[event := bill.db.events[event]] == bill.db.events;
  }

  /** When applying an event raises, whatever it had locked is given up and the event is marked FAILED,
      unless it is PROCESSED already; the worker is left with the failed job. */
  lemma FailureIsRecorded(s: State, event: EventId, now: Instant)
    requires s.worker.Applying? && NamedEvent(s.worker.job) == Some(event) && event in s.bill.db.events
    requires BillingDb.EventLock(event) !in Dropped(s.bill).locks
    ensures ValidRun(s, FailureRun(now))
    ensures var row, end := s.bill.db.events[event], After(s, FailureRun(now));
      && end.worker == Failing(s.worker.job) && end.lists == s.lists
      && end.bill.db == s.bill.db.(events := s.bill.db.events[event :=
           row.(status := if row.status.Processed? then BillingDb.Processed else BillingDb.Failed)])
  {
    DroppedTxn(s.bill);
    MarkingSteps(Dropped(s.bill), event, now);
    RaiseStep(s, event);
    hide NamedEvent, Opening, BillingDb.Enabled, BillingDb.Do, Enabled, Do, ValidRun, After;
    var lock, commit := BillingDb.LockEvent(WORKER), BillingDb.Commit(WORKER, now);
    var s1 := Do(s, Raise);
    var s2 := s1.(bill := BillingDb.Do(s1.bill, lock));
    var s3 := s2.(bill := BillingDb.Do(s2.bill, commit));
    WorkerDbStep(s1, lock);
    WorkerDbStep(s2, commit);
    RecordedStep(s3);
    RunOfTwo(s, Raise, WorkerDb(lock));
    RunOfTwo(s2, WorkerDb(commit), FailureRecorded);
    RunConcat(s, [Raise, WorkerDb(lock)], [WorkerDb(commit), FailureRecorded]);
  }

  lemma RaiseStep(s: State, event: EventId)
    requires s.worker.Applying? && NamedEvent(s.worker.job) == Some(event)
    ensures Enabled(s, Raise) && Do(s, Raise) == s.(
      bill := Opening(Dropped(s.bill), BillingDb.Marking(event, None)), worker := Recording(s.worker.job))
  {
    hide NamedEvent, Opening, Dropped;
  }

  lemma RecordedStep(s: State)
    requires s.worker.Recording? && WORKER !in s.bill.txns
    ensures Enabled(s, FailureRecorded) && Do(s, FailureRecorded) == s.(worker := Failing(s.worker.job))
  {
  }

  lemma DroppedTxn(bill: BillingDb.State)
    ensures WORKER !in Dropped(bill).txns && Dropped(bill).db == bill.db
  {
  }

  // ----- Crashes, lost replies and other jobs -----

  /** A crash and the restart after it: the committed tables stay, the open transaction of the worker is
      gone with its locks, what was in flight waits again in front of the rest, and the worker is idle. */
  lemma CrashAndRestart(s: State)
    ensures var run := [Crash, Start] + Recovery(|s.lists.processing|);
      && ValidRun(s, run)
      && var end := After(s, run);
         && end.worker == Ready && end.lists == Lists(s.lists.processing + s.lists.waiting, [], s.lists.dead)
         && end.bill.db == s.bill.db && WORKER !in end.bill.txns
         && (WORKER in s.bill.txns ==> forall r | r in end.bill.locks :: end.bill.locks[r] != WORKER)
         && end.issued == s.issued && end.acked == s.acked && end.accepted == s.accepted
  {
    DroppedTxn(s.bill);
    if WORKER in s.bill.txns {
      DroppedLocks(s.bill);
    }
    var down := s.(bill := Dropped(s.bill), worker := Down);
    var up := down.(worker := Recovering);
    assert Do(s, Crash) == down && Do(down, Start) == up;
    RunOfTwo(s, Crash, Start);
    RecoveryEnds(up);
    hide Enabled, Do, ValidRun, After, Recovery, Dropped;
    RunConcat(s, [Crash, Start], Recovery(|s.lists.processing|));
  }

  lemma DroppedLocks(bill: BillingDb.State)
    requires WORKER in bill.txns
    ensures forall r | r in Dropped(bill).locks :: Dropped(bill).locks[r] != WORKER
  {
  }

  /** An error of Redis while the worker has a job changes no list: the job stays in flight until the
      next recovery, and the worker polls on. */
  lemma RedisErrorKeepsJob(s: State)
    requires Inv(s) && Enabled(s, RedisError)
    ensures var s' := Do(s, RedisError);
      && s'.worker == Ready && s'.lists == s.lists && s'.bill == s.bill
      && ToEntry(s.worker.job) in s'.lists.processing
      && (s.lists.waiting == [] ==> Enabled(s', PollEmpty))
  {
    hide BillingDb.Inv, Bag, Covered, ToEntry, FromEntry;
  }

  /** A job that names no event: if its handler returns, the job leaves the queue; if it raises, as it
      must for a billing webhook job without an event, the job comes back or is buried. */
  lemma OtherJobSettles(s: State, ok: bool, mark: Mark)
    requires Enabled(s, Dequeue) && IsJobEntry(s.lists.waiting[|s.lists.waiting| - 1])
    requires var job := FromEntry(s.lists.waiting[|s.lists.waiting| - 1]).value;
      NamedEvent(job).None? && (ok ==> job.kind != "process_billing_webhook")
    ensures var n, l := |s.lists.waiting| - 1, s.lists;
      var job, last := FromEntry(l.waiting[n]).value, if ok then Acknowledge else Settle(mark);
      var run := [Dequeue, HandleOther(ok)] + [last];
      && ValidRun(s, run) && After(s, run).worker == Ready && After(s, run).bill == s.bill
      && After(s, run).lists ==
           if ok then l.(waiting := l.waiting[..n])
           else if job.attempt >= s.maxAttempts then
             l.(waiting := l.waiting[..n], dead := [DeadLetter(job, mark.failedAt, mark.error)] + l.dead)
           else l.(waiting := [ToEntry(NextAttempt(job))] + l.waiting[..n])
  {
    hide ToEntry, FromEntry, NamedEvent, DeadLetter, NextAttempt, IsJobEntry, BillingDb.Do, BillingDb.Enabled;
    SettlesWhatWasTaken(s.lists);
    var last := if ok then Acknowledge else Settle(mark);
    RunOfTwo(s, Dequeue, HandleOther(ok));
    RunOfOne(Do(Do(s, Dequeue), HandleOther(ok)), last);
    RunConcat(s, [Dequeue, HandleOther(ok)], [last]);
    hide ValidRun, After;
  }
}
