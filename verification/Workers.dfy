/** The worker: one poll takes a job, runs its handler, and acknowledges, retries or buries it. */
module Workers {
  import opened JobQueue
  import opened Jobs
  import opened Options

  datatype Settings = Settings(maxAttempts: int, delays: seq<int>)

  /** What `Worker.__init__` accepts. */
  predicate Accepted(cfg: Settings) {
    cfg.maxAttempts >= 1 && cfg.delays != []
  }

  /** Arbitrary handlers: which job types have one, and whether the n-th call raises. */
  datatype Handlers = Handlers(kinds: set<string>, raises: (nat, Job) -> bool)

  predicate Raises(h: Handlers, call: nat, job: Job) {
    job.kind !in h.kinds || h.raises(call, job)
  }

  /** One handled job, as an observer sees it. */
  datatype Run = Run(id: string, attempt: int, failed: bool, slept: Option<int>, buried: bool)

  /** `naps` counts the one-second sleeps of `run_forever` after a poll that raised. */
  datatype Shift = Shift(lists: Lists, log: seq<Run>, naps: nat)

  /** What a poll returns, or that it raises. */
  datatype PollResult = Handled | NothingWaiting | PollRaised

  /** Python indexing at min(attempt, len - 1): a negative index counts from the end, and one
      beyond that raises. */
  function Delay(delays: seq<int>, attempt: int): Option<int>
    requires delays != []
  {
    var index := if attempt < |delays| - 1 then attempt else |delays| - 1;
    if 0 <= index then Some(delays[index])
    else if 0 <= index + |delays| then Some(delays[index + |delays|])
    else None
  }

  /** One poll. */
  function Once(cfg: Settings, h: Handlers, mark: Mark, s: Shift): Shift
    requires Accepted(cfg)
  {
    if s.lists.waiting == [] then s
    else
      match FromEntry(s.lists.waiting[|s.lists.waiting| - 1])
      case None => s.(lists := Rejected(s.lists, mark))
      case Some(job) =>
        var taken, delay := Taken(s.lists), Delay(cfg.delays, job.attempt);
        if !Raises(h, |s.log|, job) then
          s.(lists := Acknowledged(taken, job), log := s.log + [Run(job.id, job.attempt, false, None, false)])
        else if job.attempt >= cfg.maxAttempts then
          s.(lists := Buried(taken, job, mark), log := s.log + [Run(job.id, job.attempt, true, None, true)])
        else if delay.None? then
          s.(lists := taken, log := s.log + [Run(job.id, job.attempt, true, None, false)])
        else
          s.(lists := Retried(taken, job), log := s.log + [Run(job.id, job.attempt, true, delay, false)])
  }

  /** The result of that poll: it raises on an entry that does not decode and on a delay index
      out of range. */
  function Result(cfg: Settings, h: Handlers, s: Shift): PollResult
    requires Accepted(cfg)
  {
    if s.lists.waiting == [] then NothingWaiting
    else
      match FromEntry(s.lists.waiting[|s.lists.waiting| - 1])
      case None => PollRaised
      case Some(job) =>
        if Raises(h, |s.log|, job) && job.attempt < cfg.maxAttempts
            && Delay(cfg.delays, job.attempt).None? then PollRaised
        else Handled
  }

  /** One turn of `run_forever`. */
  function Turn(cfg: Settings, h: Handlers, mark: Mark, s: Shift): Shift
    requires Accepted(cfg)
  {
    var s' := Once(cfg, h, mark, s);
    if Result(cfg, h, s).PollRaised? then s'.(naps := s'.naps + 1) else s'
  }

  /** One turn per mark. */
  function Polls(cfg: Settings, h: Handlers, marks: seq<Mark>, s: Shift): Shift
    requires Accepted(cfg)
    decreases |marks|
  {
    if marks == [] then s else Polls(cfg, h, marks[1..], Turn(cfg, h, marks[0], s))
  }

  class Worker {
    const queue: RedisJobQueue
    const cfg: Settings
    var log: seq<Run>
    var naps: nat

    constructor (queue: RedisJobQueue, cfg: Settings)
      requires Accepted(cfg)
      ensures this.queue == queue && this.cfg == cfg && log == [] && naps == 0
    {
      this.queue, this.cfg, this.log, this.naps := queue, cfg, [], 0;
    }

    function Now(): Shift
      reads this, queue
    {
      Shift(queue.Contents(), log, naps)
    }

    /** `run_once`. */
    method RunOnce(h: Handlers, mark: Mark) returns (result: PollResult)
      requires Accepted(cfg)
      modifies this, queue
      ensures Now() == Once(cfg, h, mark, old(Now()))
      ensures result == Result(cfg, h, old(Now()))
    {
      var polled := queue.Dequeue(mark);
      if polled.Idle? {
        return NothingWaiting;
      }
      if polled.Raised? {
        return PollRaised;
      }
      var job := polled.job;
      if Raises(h, |log|, job) {
        if job.attempt >= cfg.maxAttempts {
          queue.MoveToDeadLetter(job, mark);
          log := log + [Run(job.id, job.attempt, true, None, true)];
          return Handled;
        }
        var delay := Delay(cfg.delays, job.attempt);
        log := log + [Run(job.id, job.attempt, true, delay, false)];
        if delay.None? {
          return PollRaised;
        }
        var next := queue.Retry(job);
        return Handled;
      }
      queue.Acknowledge(job);
      log := log + [Run(job.id, job.attempt, false, None, false)];
      return Handled;
    }

    /** `run_forever`, watched for one poll per mark: recovery, then polls that survive every
        error, with a nap after each. */
    method RunForever(h: Handlers, marks: seq<Mark>)
      requires Accepted(cfg)
      modifies this, queue
      ensures var start := Lists(old(queue.processing) + old(queue.waiting), [], old(queue.dead));
        Now() == Polls(cfg, h, marks, Shift(start, old(log), old(naps)))
    {
      hide Once, Result;
      var recovered := queue.RecoverInFlight();
      ghost var start := Now();
      var n := 0;
      while n < |marks|
        invariant n <= |marks|
        invariant Polls(cfg, h, marks[n..], Now()) == Polls(cfg, h, marks, start)
      {
        var result := RunOnce(h, marks[n]);
        if result.PollRaised? {
          naps := naps + 1;
        }
        assert marks[n..][1..] == marks[n + 1..];
        n := n + 1;
      }
    }
  }

  /** What a poll of a job does to the lists, and how long it sleeps. A job with a handler that returns
      leaves the queue. A job that fails, or has no handler, comes back at the next attempt, or is
      buried at the last one. The in-flight list ends as it was, unless an attempt below every delay
      index stops the poll. */
  lemma PollMeans(cfg: Settings, h: Handlers, mark: Mark, s: Shift, rest: seq<Json>, e: Json)
    requires Accepted(cfg) && s.lists.waiting == rest + [e] && IsJobEntry(e)
    ensures var job, l := FromEntry(e).value, s.lists;
      var fails := job.kind in h.kinds ==> h.raises(|s.log|, job);
      var stuck := fails && job.attempt < -|cfg.delays|;
      && Result(cfg, h, s) == (if stuck then PollRaised else Handled)
      && Once(cfg, h, mark, s).lists ==
           (if !fails then Lists(rest, l.processing, l.dead)
           else if job.attempt >= cfg.maxAttempts then
             Lists(rest, l.processing, [DeadLetter(job, mark.failedAt, mark.error)] + l.dead)
           else if stuck then Lists(rest, [e] + l.processing, l.dead)
           else Lists([ToEntry(job.(attempt := job.attempt + 1))] + rest, l.processing, l.dead))
      && var buried, n := fails && job.attempt >= cfg.maxAttempts, |cfg.delays|;
         var slot := if job.attempt < 0 then n + job.attempt else if job.attempt < n then job.attempt else n - 1;
         Once(cfg, h, mark, s).log == s.log + [Run(
           job.id, job.attempt, fails, if !fails || buried || stuck then None else Some(cfg.delays[slot]), buried)]
  {
    hide ToEntry, FromEntry, DeadLetter;
    assert s.lists.waiting[..|rest|] == rest;
    SettlesWhatWasTaken(s.lists);
  }

  // ----- Draining -----

  /** Polls an entry can still cost. */
  function Weight(cfg: Settings, e: Json): nat {
    match FromEntry(e)
    case None => 1
    case Some(job) => JobWeight(cfg, job)
  }

  function JobWeight(cfg: Settings, job: Job): (n: nat)
    ensures n >= 1
  {
    if job.attempt <= cfg.maxAttempts then cfg.maxAttempts + 1 - job.attempt else 1
  }

  function Backlog(cfg: Settings, waiting: seq<Json>): nat {
    if waiting == [] then 0
    else Weight(cfg, waiting[|waiting| - 1]) + Backlog(cfg, waiting[..|waiting| - 1])
  }

  lemma {:induction false} BacklogPush(cfg: Settings, e: Json, waiting: seq<Json>)
    ensures Backlog(cfg, [e] + waiting) == Weight(cfg, e) + Backlog(cfg, waiting)
  {
    if waiting == [] {
      assert ([e] + waiting)[..0] == [];
    } else {
      assert ([e] + waiting)[..|waiting|] == [e] + waiting[..|waiting| - 1];
      BacklogPush(cfg, e, waiting[..|waiting| - 1]);
    }
  }

  lemma PollShrinks(cfg: Settings, h: Handlers, mark: Mark, s: Shift)
    requires Accepted(cfg) && s.lists.waiting != []
    ensures Backlog(cfg, Once(cfg, h, mark, s).lists.waiting) < Backlog(cfg, s.lists.waiting)
  {
    var n := |s.lists.waiting| - 1;
    var decoded := FromEntry(s.lists.waiting[n]);
    if decoded.Some? {
      var next := NextAttempt(decoded.value);
      EncodeDecode(next);
      BacklogPush(cfg, ToEntry(next), s.lists.waiting[..n]);
    }
  }

  lemma TurnIsPoll(cfg: Settings, h: Handlers, mark: Mark, s: Shift)
    requires Accepted(cfg)
    ensures Turn(cfg, h, mark, s).lists == Once(cfg, h, mark, s).lists
    ensures Turn(cfg, h, mark, s).log == Once(cfg, h, mark, s).log
  {
    hide Once, Result;
  }

  /** A run without crashes or new jobs empties the queue within the summed retry budgets,
      whatever the handlers do and whatever the entries are. */
  lemma {:induction false} DrainsWithinBudget(cfg: Settings, h: Handlers, marks: seq<Mark>, s: Shift)
    requires Accepted(cfg) && Backlog(cfg, s.lists.waiting) <= |marks|
    ensures Polls(cfg, h, marks, s).lists.waiting == []
    decreases |marks|
  {
    hide Once, Turn;
    if marks != [] {
      TurnIsPoll(cfg, h, marks[0], s);
      if s.lists.waiting != [] {
        PollShrinks(cfg, h, marks[0], s);
      } else {
        IdlePoll(cfg, h, marks[0], s);
      }
      DrainsWithinBudget(cfg, h, marks[1..], Turn(cfg, h, marks[0], s));
    }
  }

  /** An entry above the maximum attempt still costs its one poll, which acknowledges or buries it. */
  lemma OverdueEntryCostsOnePoll(cfg: Settings, h: Handlers, mark: Mark, s: Shift, e: Json)
    requires Accepted(cfg) && s.lists.waiting == [e]
    requires FromEntry(e).Some? && FromEntry(e).value.attempt > cfg.maxAttempts
    ensures cfg.maxAttempts + 1 - FromEntry(e).value.attempt <= 0
    ensures Backlog(cfg, s.lists.waiting) == 1
    ensures Result(cfg, h, s) == Handled && Once(cfg, h, mark, s).lists.waiting == []
    ensures |Once(cfg, h, mark, s).log| == |s.log| + 1
  {
    hide ToEntry, FromEntry, RemoveFirst, DeadLetter, Raises;
    assert s.lists.waiting[..0] == [];
  }

  predicate WithinBudget(cfg: Settings, e: Json) {
    FromEntry(e).Some? && 0 <= FromEntry(e).value.attempt <= cfg.maxAttempts
  }

  lemma FailureSpendsOne(cfg: Settings, h: Handlers, mark: Mark, s: Shift)
    requires Accepted(cfg) && s.lists.waiting != []
    requires forall call: nat, job: Job :: h.raises(call, job)
    requires forall e | e in s.lists.waiting :: WithinBudget(cfg, e)
    ensures var waiting := Once(cfg, h, mark, s).lists.waiting;
      && Backlog(cfg, waiting) == Backlog(cfg, s.lists.waiting) - 1
      && forall e | e in waiting :: WithinBudget(cfg, e)
  {
    hide ToEntry, FromEntry;
    var k := |s.lists.waiting| - 1;
    assert WithinBudget(cfg, s.lists.waiting[k]);
    var job := FromEntry(s.lists.waiting[k]).value;
    EncodeDecode(NextAttempt(job));
    BacklogPush(cfg, ToEntry(NextAttempt(job)), s.lists.waiting[..k]);
  }

  /** The budget is exact: if every call fails, no fewer polls empty the queue. */
  lemma {:induction false} FailuresSpendTheBudget(cfg: Settings, h: Handlers, marks: seq<Mark>, s: Shift)
    requires Accepted(cfg) && |marks| <= Backlog(cfg, s.lists.waiting)
    requires forall call: nat, job: Job :: h.raises(call, job)
    requires forall e | e in s.lists.waiting :: WithinBudget(cfg, e)
    ensures Backlog(cfg, Polls(cfg, h, marks, s).lists.waiting) == Backlog(cfg, s.lists.waiting) - |marks|
    decreases |marks|
  {
    hide Once, Turn;
    if marks != [] {
      TurnIsPoll(cfg, h, marks[0], s);
      FailureSpendsOne(cfg, h, marks[0], s);
      FailuresSpendTheBudget(cfg, h, marks[1..], Turn(cfg, h, marks[0], s));
    }
  }

  // ----- One job that always fails, among others -----

  predicate HasId(e: Json, id: string) {
    FromEntry(e).Some? && FromEntry(e).value.id == id
  }

  /** Attempts of the waiting entries with this id, in list order. */
  function Attempts(waiting: seq<Json>, id: string): seq<int> {
    if waiting == [] then []
    else
      var e := waiting[|waiting| - 1];
      Attempts(waiting[..|waiting| - 1], id) + if HasId(e, id) then [FromEntry(e).value.attempt] else []
  }

  predicate AtMostOne(waiting: seq<Json>, id: string) {
    var attempts := Attempts(waiting, id);
    |attempts| <= 1 && (attempts != [] ==> 0 <= attempts[0])
  }

  function RunsOf(log: seq<Run>, id: string): seq<Run> {
    if log == [] then []
    else
      var last := log[|log| - 1];
      RunsOf(log[..|log| - 1], id) + if last.id == id then [last] else []
  }

  /** What a job that fails from this attempt on is still going to do. */
  function Trace(cfg: Settings, id: string, attempt: int): seq<Run>
    requires Accepted(cfg)
    decreases cfg.maxAttempts - attempt
  {
    if attempt >= cfg.maxAttempts then [Run(id, attempt, true, None, true)]
    else [Run(id, attempt, true, Delay(cfg.delays, attempt), false)] + Trace(cfg, id, attempt + 1)
  }

  function Ahead(cfg: Settings, id: string, attempts: seq<int>): seq<Run>
    requires Accepted(cfg)
  {
    if attempts == [] then [] else Trace(cfg, id, attempts[0])
  }

  lemma {:induction false} AttemptsPush(e: Json, waiting: seq<Json>, id: string)
    ensures Attempts([e] + waiting, id) ==
      (if HasId(e, id) then [FromEntry(e).value.attempt] else []) + Attempts(waiting, id)
  {
    if waiting == [] {
      assert ([e] + waiting)[..0] == [];
    } else {
      assert ([e] + waiting)[..|waiting|] == [e] + waiting[..|waiting| - 1];
      AttemptsPush(e, waiting[..|waiting| - 1], id);
    }
  }

  /** The part of a poll the trace depends on. */
  lemma PollEffect(cfg: Settings, h: Handlers, mark: Mark, s: Shift, rest: seq<Json>, e: Json)
    requires Accepted(cfg) && s.lists.waiting == rest + [e]
    ensures var s', job := Once(cfg, h, mark, s), FromEntry(e);
      && (job.None? ==> s'.log == s.log && s'.lists.waiting == rest)
      && (job.Some? ==>
        && |s'.log| == |s.log| + 1 && s'.log[..|s.log|] == s.log && s'.log[|s.log|].id == job.value.id
        && (s'.lists.waiting == rest || s'.lists.waiting == [ToEntry(NextAttempt(job.value))] + rest)
        && (Raises(h, |s.log|, job.value) && 0 <= job.value.attempt ==>
            && s'.lists.waiting == (if job.value.attempt >= cfg.maxAttempts then []
                else [ToEntry(NextAttempt(job.value))]) + rest
            && s'.log[|s.log|] == Trace(cfg, job.value.id, job.value.attempt)[0]))
  {
    hide ToEntry, FromEntry, RemoveFirst, DeadLetter, Raises;
    assert s.lists.waiting[..|rest|] == rest;
  }

  lemma RunsAppend(log: seq<Run>, run: Run, id: string)
    ensures RunsOf(log + [run], id) == RunsOf(log, id) + if run.id == id then [run] else []
  {
    assert (log + [run])[..|log|] == log;
  }

  lemma AttemptsAppend(rest: seq<Json>, e: Json, id: string)
    ensures Attempts(rest + [e], id) == Attempts(rest, id) + if HasId(e, id) then [FromEntry(e).value.attempt] else []
  {
    assert (rest + [e])[..|rest|] == rest;
  }

  /** A poll of another job leaves the attempts and runs of this one alone. */
  lemma OtherPoll(cfg: Settings, h: Handlers, mark: Mark, s: Shift, rest: seq<Json>, e: Json, id: string)
    requires Accepted(cfg) && s.lists.waiting == rest + [e] && !HasId(e, id)
    ensures var s' := Once(cfg, h, mark, s);
      && Attempts(s'.lists.waiting, id) == Attempts(s.lists.waiting, id)
      && RunsOf(s'.log, id) == RunsOf(s.log, id)
  {
    hide Once, ToEntry, FromEntry, Raises, RunsOf, Attempts, Delay, Trace;
    PollEffect(cfg, h, mark, s, rest, e);
    AttemptsAppend(rest, e, id);
    if FromEntry(e).Some? {
      var next, s' := NextAttempt(FromEntry(e).value), Once(cfg, h, mark, s);
      EncodeDecode(next);
      AttemptsPush(ToEntry(next), rest, id);
      RunsAppend(s.log, s'.log[|s.log|], id);
      assert s'.log == s.log + [s'.log[|s.log|]];
    }
  }

  lemma OwnPoll(cfg: Settings, h: Handlers, mark: Mark, s: Shift, rest: seq<Json>, e: Json, id: string)
    requires Accepted(cfg) && s.lists.waiting == rest + [e] && HasId(e, id)
    requires AtMostOne(s.lists.waiting, id)
    requires forall call: nat, job: Job | job.id == id :: Raises(h, call, job)
    ensures var s', attempt := Once(cfg, h, mark, s), FromEntry(e).value.attempt;
      && Attempts(s.lists.waiting, id) == [attempt]
      && Attempts(s'.lists.waiting, id) == (if attempt >= cfg.maxAttempts then [] else [attempt + 1])
      && RunsOf(s'.log, id) == RunsOf(s.log, id) + [Trace(cfg, id, attempt)[0]]
  {
    hide Once, ToEntry, FromEntry, Raises, RunsOf, Attempts, Delay, Trace;
    PollEffect(cfg, h, mark, s, rest, e);
    AttemptsAppend(rest, e, id);
    assert Attempts(rest, id) == [];
    var next, s' := NextAttempt(FromEntry(e).value), Once(cfg, h, mark, s);
    EncodeDecode(next);
    AttemptsPush(ToEntry(next), rest, id);
    RunsAppend(s.log, s'.log[|s.log|], id);
    assert s'.log == s.log + [s'.log[|s.log|]];
  }

  lemma AheadStep(cfg: Settings, id: string, attempt: int)
    requires Accepted(cfg)
    ensures Trace(cfg, id, attempt) != []
    ensures Ahead(cfg, id, [attempt])
         == [Trace(cfg, id, attempt)[0]] + Ahead(cfg, id, if attempt >= cfg.maxAttempts then [] else [attempt + 1])
  {
    hide Delay;
  }

  lemma IdlePoll(cfg: Settings, h: Handlers, mark: Mark, s: Shift)
    requires Accepted(cfg) && s.lists.waiting == []
    ensures Once(cfg, h, mark, s) == s
  {
  }

  lemma HeadMoves(past: seq<Run>, head: Run, future: seq<Run>)
    ensures (past + [head]) + future == past + ([head] + future)
  {
  }

  /** One poll moves one step of the job's future into its past, or leaves both alone. */
  lemma PollAdvancesTrace(cfg: Settings, h: Handlers, mark: Mark, s: Shift, id: string)
    requires Accepted(cfg)
    requires AtMostOne(s.lists.waiting, id)
    requires forall call: nat, job: Job | job.id == id :: Raises(h, call, job)
    ensures var s' := Once(cfg, h, mark, s);
      && AtMostOne(s'.lists.waiting, id)
      && RunsOf(s'.log, id) + Ahead(cfg, id, Attempts(s'.lists.waiting, id))
         == RunsOf(s.log, id) + Ahead(cfg, id, Attempts(s.lists.waiting, id))
  {
    hide Once, Raises, RunsOf, Attempts, FromEntry, Trace, Ahead;
    if s.lists.waiting == [] {
      IdlePoll(cfg, h, mark, s);
    } else {
      var k, s' := |s.lists.waiting| - 1, Once(cfg, h, mark, s);
      var rest, e := s.lists.waiting[..k], s.lists.waiting[k];
      assert s.lists.waiting == rest + [e];
      if HasId(e, id) {
        OwnPoll(cfg, h, mark, s, rest, e, id);
        AheadStep(cfg, id, FromEntry(e).value.attempt);
        HeadMoves(RunsOf(s.log, id), Trace(cfg, id, FromEntry(e).value.attempt)[0],
            Ahead(cfg, id, Attempts(s'.lists.waiting, id)));
      } else {
        OtherPoll(cfg, h, mark, s, rest, e, id);
      }
    }
  }

  lemma {:induction false} PollsAdvanceTrace(cfg: Settings, h: Handlers, marks: seq<Mark>, s: Shift, id: string)
    requires Accepted(cfg)
    requires AtMostOne(s.lists.waiting, id)
    requires forall call: nat, job: Job | job.id == id :: Raises(h, call, job)
    ensures var s' := Polls(cfg, h, marks, s);
      RunsOf(s'.log, id) + Ahead(cfg, id, Attempts(s'.lists.waiting, id))
      == RunsOf(s.log, id) + Ahead(cfg, id, Attempts(s.lists.waiting, id))
    decreases |marks|
  {
    hide Once, Turn, Attempts, RunsOf, Ahead, AtMostOne, Raises;
    if marks != [] {
      TurnIsPoll(cfg, h, marks[0], s);
      PollAdvancesTrace(cfg, h, marks[0], s, id);
      PollsAdvanceTrace(cfg, h, marks[1..], Turn(cfg, h, marks[0], s), id);
    }
  }

  lemma {:induction false} TraceShape(cfg: Settings, id: string, attempt: int)
    requires Accepted(cfg) && 0 <= attempt <= cfg.maxAttempts
    ensures |Trace(cfg, id, attempt)| == cfg.maxAttempts + 1 - attempt
    ensures forall i | 0 <= i < cfg.maxAttempts - attempt ::
      Trace(cfg, id, attempt)[i] == Run(id, attempt + i, true, Delay(cfg.delays, attempt + i), false)
    ensures Trace(cfg, id, attempt)[cfg.maxAttempts - attempt] == Run(id, cfg.maxAttempts, true, None, true)
    decreases cfg.maxAttempts - attempt
  {
    if attempt < cfg.maxAttempts {
      TraceShape(cfg, id, attempt + 1);
      var rest := Trace(cfg, id, attempt + 1);
      forall i | 0 <= i < cfg.maxAttempts - attempt
        ensures Trace(cfg, id, attempt)[i] == Run(id, attempt + i, true, Delay(cfg.delays, attempt + i), false)
      {
        if i > 0 {
          assert Trace(cfg, id, attempt)[i] == rest[i - 1];
        }
      }
    }
  }

  lemma DrainedTrace(cfg: Settings, h: Handlers, marks: seq<Mark>, s: Shift, id: string)
    requires Accepted(cfg) && Backlog(cfg, s.lists.waiting) <= |marks|
    requires Attempts(s.lists.waiting, id) == [0] && RunsOf(s.log, id) == []
    requires forall call: nat, job: Job | job.id == id :: Raises(h, call, job)
    ensures RunsOf(Polls(cfg, h, marks, s).log, id) == Trace(cfg, id, 0)
  {
    assert Attempts([], id) == [];
    hide Polls, Raises, Backlog, Attempts, RunsOf, Trace;
    DrainsWithinBudget(cfg, h, marks, s);
    PollsAdvanceTrace(cfg, h, marks, s, id);
    var runs := RunsOf(Polls(cfg, h, marks, s).log, id);
    assert runs + [] == runs && [] + Trace(cfg, id, 0) == Trace(cfg, id, 0);
  }

  // ----- The dead list agrees with the log -----

  /** Attempts at which letters with this id were written to the dead list, oldest first. */
  function DeadAttempts(dead: seq<Json>, id: string): seq<int> {
    if dead == [] then []
    else
      var job := DeadJob(dead[0]);
      DeadAttempts(dead[1..], id) + if job.Some? && job.value.id == id then [job.value.attempt] else []
  }

  function BuriedAt(runs: seq<Run>): seq<int> {
    if runs == [] then []
    else
      var last := runs[|runs| - 1];
      BuriedAt(runs[..|runs| - 1]) + if last.buried then [last.attempt] else []
  }

  lemma BuriedAppend(runs: seq<Run>, run: Run)
    ensures BuriedAt(runs + [run]) == BuriedAt(runs) + if run.buried then [run.attempt] else []
  {
    assert (runs + [run])[..|runs|] == runs;
  }

  lemma DeadPush(e: Json, dead: seq<Json>, id: string)
    ensures DeadAttempts([e] + dead, id) == DeadAttempts(dead, id)
      + if DeadJob(e).Some? && DeadJob(e).value.id == id then [DeadJob(e).value.attempt] else []
  {
    hide DeadJob;
    assert ([e] + dead)[1..] == dead;
  }

  lemma RejectedHasNoJob(l: Lists, mark: Mark)
    requires l.waiting != []
    ensures Rejected(l, mark).dead != [] && Rejected(l, mark).dead[1..] == l.dead
        && DeadJob(Rejected(l, mark).dead[0]).None?
  {
    hide FromEntry;
    var fields := [("failed_at", JString(mark.failedAt)), ("error_type", JString(mark.error)),
        ("raw_sha256", JString(mark.digest))];
    assert Rejected(l, mark).dead[0] == JObject(fields);
    assert "failed_at"[0] != "job"[0] && "error_type"[0] != "job"[0] && "raw_sha256"[0] != "job"[0];
    assert Get([fields[0]], "job").None?;
    assert fields[..2][1] == fields[1] && fields[..2][..1] == [fields[0]];
    assert Get(fields[..2], "job") == Get([fields[0]], "job");
  }

  /** What a poll adds to the log and to the dead list. */
  lemma BurialEffect(cfg: Settings, h: Handlers, mark: Mark, s: Shift)
    requires Accepted(cfg)
    ensures var s', k := Once(cfg, h, mark, s), |s.log|;
      || (s'.log == s.log && s'.lists.dead == s.lists.dead)
      || (s'.log == s.log && s'.lists.dead != [] && s'.lists.dead[1..] == s.lists.dead
          && DeadJob(s'.lists.dead[0]).None?)
      || (|s'.log| == k + 1 && s'.log == s.log + [s'.log[k]] && !s'.log[k].buried && s'.lists.dead == s.lists.dead)
      || (&& |s'.log| == k + 1 && s'.log == s.log + [s'.log[k]] && s'.log[k].buried
          && s'.lists.dead != [] && s'.lists.dead[1..] == s.lists.dead
          && DeadJob(s'.lists.dead[0]).Some?
          && DeadJob(s'.lists.dead[0]).value.id == s'.log[k].id
          && DeadJob(s'.lists.dead[0]).value.attempt == s'.log[k].attempt)
  {
    hide ToEntry, FromEntry, RemoveFirst, DeadLetter, DeadJob, Raises, Delay, Rejected;
    if s.lists.waiting != [] {
      var decoded := FromEntry(s.lists.waiting[|s.lists.waiting| - 1]);
      if decoded.None? {
        RejectedHasNoJob(s.lists, mark);
      } else {
        DeadLetterNames(decoded.value, mark.failedAt, mark.error);
      }
    }
  }

  /** The letters of an id in the dead list are exactly its burials in the log. */
  lemma PollKeepsBurials(cfg: Settings, h: Handlers, mark: Mark, s: Shift, id: string)
    requires Accepted(cfg) && DeadAttempts(s.lists.dead, id) == BuriedAt(RunsOf(s.log, id))
    ensures var s' := Once(cfg, h, mark, s);
      DeadAttempts(s'.lists.dead, id) == BuriedAt(RunsOf(s'.log, id))
  {
    hide Once, DeadAttempts, BuriedAt, RunsOf, DeadJob;
    var s', k := Once(cfg, h, mark, s), |s.log|;
    BurialEffect(cfg, h, mark, s);
    if s'.lists.dead != s.lists.dead {
      assert s'.lists.dead == [s'.lists.dead[0]] + s.lists.dead;
      DeadPush(s'.lists.dead[0], s.lists.dead, id);
    }
    if s'.log != s.log {
      RunsAppend(s.log, s'.log[k], id);
      BuriedAppend(RunsOf(s.log, id), s'.log[k]);
    }
    assert RunsOf(s.log, id) + [] == RunsOf(s.log, id);
    assert DeadAttempts(s.lists.dead, id) + [] == DeadAttempts(s.lists.dead, id);
  }

  lemma {:induction false} PollsKeepBurials(cfg: Settings, h: Handlers, marks: seq<Mark>, s: Shift, id: string)
    requires Accepted(cfg) && DeadAttempts(s.lists.dead, id) == BuriedAt(RunsOf(s.log, id))
    ensures DeadAttempts(Polls(cfg, h, marks, s).lists.dead, id) == BuriedAt(RunsOf(Polls(cfg, h, marks, s).log, id))
    decreases |marks|
  {
    hide Once, Turn, DeadAttempts, BuriedAt, RunsOf;
    if marks != [] {
      TurnIsPoll(cfg, h, marks[0], s);
      PollKeepsBurials(cfg, h, marks[0], s, id);
      PollsKeepBurials(cfg, h, marks[1..], Turn(cfg, h, marks[0], s), id);
    }
  }

  lemma {:induction false} NoBurials(runs: seq<Run>)
    requires forall i | 0 <= i < |runs| :: !runs[i].buried
    ensures BuriedAt(runs) == []
  {
    if runs != [] {
      NoBurials(runs[..|runs| - 1]);
    }
  }

  lemma TraceBurial(cfg: Settings, id: string)
    requires Accepted(cfg)
    ensures BuriedAt(Trace(cfg, id, 0)) == [cfg.maxAttempts]
  {
    hide Trace, BuriedAt, Delay;
    TraceShape(cfg, id, 0);
    var runs := Trace(cfg, id, 0);
    var before := runs[..cfg.maxAttempts];
    assert runs == before + [runs[cfg.maxAttempts]];
    NoBurials(before);
    BuriedAppend(before, runs[cfg.maxAttempts]);
  }

  lemma BurialsOfDrained(cfg: Settings, h: Handlers, marks: seq<Mark>, s: Shift, id: string)
    requires Accepted(cfg) && Backlog(cfg, s.lists.waiting) <= |marks|
    requires Attempts(s.lists.waiting, id) == [0] && RunsOf(s.log, id) == [] && DeadAttempts(s.lists.dead, id) == []
    requires forall call: nat, job: Job | job.id == id :: Raises(h, call, job)
    ensures DeadAttempts(Polls(cfg, h, marks, s).lists.dead, id) == [cfg.maxAttempts]
  {
    assert BuriedAt([]) == [];
    hide Polls, Raises, Backlog, Attempts, RunsOf, Trace, DeadAttempts, BuriedAt;
    DrainedTrace(cfg, h, marks, s, id);
    PollsKeepBurials(cfg, h, marks, s, id);
    TraceBurial(cfg, id);
  }

  /** A new job that always fails, queued among any others: once the queue has drained it has run
      exactly maxAttempts + 1 times, slept after each attempt but the last for the delay of that
      attempt, and the dead list holds exactly one letter for it, at attempt maxAttempts. */
  lemma AlwaysFailingJob(cfg: Settings, h: Handlers, marks: seq<Mark>, s: Shift, id: string)
    requires Accepted(cfg) && Backlog(cfg, s.lists.waiting) <= |marks|
    requires Attempts(s.lists.waiting, id) == [0] && RunsOf(s.log, id) == [] && DeadAttempts(s.lists.dead, id) == []
    requires forall call: nat, job: Job | job.id == id :: Raises(h, call, job)
    ensures var s' := Polls(cfg, h, marks, s);
      var runs := RunsOf(s'.log, id);
      && |runs| == cfg.maxAttempts + 1
      && (forall i | 0 <= i < cfg.maxAttempts ::
            var slot := if i < |cfg.delays| then i else |cfg.delays| - 1;
            runs[i] == Run(id, i, true, Some(cfg.delays[slot]), false))
      && runs[cfg.maxAttempts] == Run(id, cfg.maxAttempts, true, None, true)
      && DeadAttempts(s'.lists.dead, id) == [cfg.maxAttempts]
      && s'.lists.waiting == []
  {
    BurialsOfDrained(cfg, h, marks, s, id);
    hide Polls, Raises, Backlog, Attempts, RunsOf, Trace, DeadAttempts;
    DrainedTrace(cfg, h, marks, s, id);
    DrainsWithinBudget(cfg, h, marks, s);
    TraceShape(cfg, id, 0);
  }
}
