/** The Redis job queue: three lists of entries, changed by atomic commands and MULTI blocks.
    The head of a list is its first element; `lpush` writes there and `brpoplpush` reads the tail. */
module JobQueue {
  import opened Jobs
  import opened Options

  datatype Lists = Lists(waiting: seq<Json>, processing: seq<Json>, dead: seq<Json>)

  /** `lrem list 1 e`: drops the occurrence nearest to the head. */
  function RemoveFirst(list: seq<Json>, e: Json): seq<Json> {
    if list == [] then []
    else if list[0] == e then list[1..]
    else [list[0]] + RemoveFirst(list[1..], e)
  }

  function Enqueued(l: Lists, job: Job): Lists {
    l.(waiting := [ToEntry(job)] + l.waiting)
  }

  function Taken(l: Lists): Lists
    requires l.waiting != []
  {
    var n := |l.waiting| - 1;
    l.(waiting := l.waiting[..n], processing := [l.waiting[n]] + l.processing)
  }

  function Acknowledged(l: Lists, job: Job): Lists {
    l.(processing := RemoveFirst(l.processing, ToEntry(job)))
  }

  function Retried(l: Lists, job: Job): Lists {
    Acknowledged(l, job).(waiting := [ToEntry(NextAttempt(job))] + l.waiting)
  }

  function Buried(l: Lists, job: Job, mark: Mark): Lists {
    Acknowledged(l, job).(dead := [DeadLetter(job, mark.failedAt, mark.error)] + l.dead)
  }

  function Returned(l: Lists): Lists
    requires l.processing != []
  {
    var n := |l.processing| - 1;
    l.(waiting := [l.processing[n]] + l.waiting, processing := l.processing[..n])
  }

  /** What the environment writes into a dead letter: the time, the error type, a digest. */
  datatype Mark = Mark(failedAt: string, error: string, digest: string)

  /** The tail entry did not decode: one MULTI block replaces it by an envelope without its text. */
  function Rejected(l: Lists, mark: Mark): Lists
    requires l.waiting != []
  {
    var letter := JObject([("failed_at", JString(mark.failedAt)), ("error_type", JString(mark.error)),
                           ("raw_sha256", JString(mark.digest))]);
    l.(waiting := l.waiting[..|l.waiting| - 1], dead := [letter] + l.dead)
  }

  datatype Polled = Idle | Got(job: Job) | Raised

  class RedisJobQueue {
    var waiting: seq<Json>
    var processing: seq<Json>
    var dead: seq<Json>

    constructor ()
      ensures Contents() == Lists([], [], [])
    {
      waiting, processing, dead := [], [], [];
    }

    function Contents(): Lists
      reads this
    {
      Lists(waiting, processing, dead)
    }

    method Enqueue(job: Job)
      modifies this
      ensures Contents() == Enqueued(old(Contents()), job)
      ensures waiting == [ToEntry(job)] + old(waiting) && processing == old(processing) && dead == old(dead)
    {
      waiting := [ToEntry(job)] + waiting;
    }

    method Dequeue(mark: Mark) returns (polled: Polled)
      modifies this
      ensures old(waiting) == [] ==> polled == Idle && Contents() == old(Contents())
      ensures old(waiting) != [] ==>
        match FromEntry(old(waiting)[|old(waiting)| - 1])
        case Some(job) => polled == Got(job) && Contents() == Taken(old(Contents()))
        case None => polled == Raised && Contents() == Rejected(old(Contents()), mark)
      ensures old(waiting) != [] ==>
        var last := old(waiting)[|old(waiting)| - 1];
        && waiting == old(waiting)[..|old(waiting)| - 1]
        && (polled.Got? ==> processing == [last] + old(processing) && dead == old(dead))
        && (polled.Raised? ==>
              && processing == old(processing)
              && dead == [JObject([("failed_at", JString(mark.failedAt)), ("error_type", JString(mark.error)),
                                   ("raw_sha256", JString(mark.digest))])] + old(dead))
    {
      if waiting == [] {
        return Idle;
      }
      var raw := waiting[|waiting| - 1];
      waiting, processing := waiting[..|waiting| - 1], [raw] + processing;
      match FromEntry(raw)
      case Some(job) =>
        polled := Got(job);
      case None =>
        processing := RemoveFirst(processing, raw);
        dead := [JObject([("failed_at", JString(mark.failedAt)), ("error_type", JString(mark.error)),
                          ("raw_sha256", JString(mark.digest))])] + dead;
        polled := Raised;
    }

    method Acknowledge(job: Job)
      modifies this
      ensures Contents() == Acknowledged(old(Contents()), job)
      ensures waiting == old(waiting) && processing == RemoveFirst(old(processing), ToEntry(job)) && dead == old(dead)
    {
      processing := RemoveFirst(processing, ToEntry(job));
    }

    method Retry(job: Job) returns (next: Job)
      modifies this
      ensures next == NextAttempt(job)
      ensures Contents() == Retried(old(Contents()), job)
      ensures waiting == [ToEntry(job.(attempt := job.attempt + 1))] + old(waiting)
      ensures processing == RemoveFirst(old(processing), ToEntry(job)) && dead == old(dead)
    {
      next := NextAttempt(job);
      processing := RemoveFirst(processing, ToEntry(job));
      waiting := [ToEntry(next)] + waiting;
    }

    method MoveToDeadLetter(job: Job, mark: Mark)
      modifies this
      ensures Contents() == Buried(old(Contents()), job, mark)
      ensures waiting == old(waiting) && processing == RemoveFirst(old(processing), ToEntry(job))
      ensures dead == [DeadLetter(job, mark.failedAt, mark.error)] + old(dead)
    {
      processing := RemoveFirst(processing, ToEntry(job));
      dead := [DeadLetter(job, mark.failedAt, mark.error)] + dead;
    }

    /** Recovery puts the in-flight entries in front of the waiting ones, both in list order, and
        reports how many there were. */
    method RecoverInFlight() returns (recovered: nat)
      modifies this
      ensures Contents() == Lists(old(processing) + old(waiting), [], old(dead))
      ensures recovered == |old(processing)|
    {
      recovered := 0;
      while processing != []
        invariant dead == old(dead)
        invariant recovered + |processing| == |old(processing)|
        invariant processing == old(processing)[..|processing|]
        invariant waiting == old(processing)[|processing|..] + old(waiting)
        decreases |processing|
      {
        var n := |processing| - 1;
        waiting, processing := [processing[n]] + waiting, processing[..n];
        recovered := recovered + 1;
      }
    }
  }

  // ----- What the list commands do to the entries -----

  lemma {:induction false} RemoveFirstMultiset(list: seq<Json>, e: Json)
    ensures multiset(RemoveFirst(list, e)) == multiset(list) - multiset{e}
    ensures e !in list ==> RemoveFirst(list, e) == list
  {
    if list != [] {
      assert list == [list[0]] + list[1..];
      if list[0] != e {
        RemoveFirstMultiset(list[1..], e);
      }
    }
  }

  /** Settling a job right after taking it removes exactly the entry taken, even if equal entries
      are in flight, because the decoded job encodes to that entry and it sits at the head. */
  lemma SettlesWhatWasTaken(l: Lists)
    requires l.waiting != [] && IsJobEntry(l.waiting[|l.waiting| - 1])
    ensures var job := FromEntry(l.waiting[|l.waiting| - 1]).value;
      Acknowledged(Taken(l), job) == l.(waiting := l.waiting[..|l.waiting| - 1])
  {
    var e := l.waiting[|l.waiting| - 1];
    assert Taken(l).processing[0] == e && Taken(l).processing[1..] == l.processing;
  }

  /** Removal takes the occurrence nearest to the head. */
  lemma {:induction false} RemoveFirstSplit(before: seq<Json>, e: Json, after: seq<Json>)
    requires e !in before
    ensures RemoveFirst(before + [e] + after, e) == before + after
    decreases |before|
  {
    var list := before + [e] + after;
    if before == [] {
      assert list[0] == e && list[1..] == after && before + after == after;
    } else {
      assert list[1..] == before[1..] + [e] + after;
      RemoveFirstSplit(before[1..], e, after);
      assert before + after == [before[0]] + (before[1..] + after);
    }
  }

  // ----- First in, first out -----

  /** The entries in the order in which they will be taken. */
  function Upcoming(l: Lists): seq<Json>
    decreases |l.waiting|
  {
    if l.waiting == [] then [] else [Taken(l).processing[0]] + Upcoming(Taken(l))
  }

  /** What is taken next depends on the waiting list alone. */
  lemma {:induction false} UpcomingOfWaiting(l: Lists, l': Lists)
    requires l.waiting == l'.waiting
    ensures Upcoming(l) == Upcoming(l')
    decreases |l.waiting|
  {
    if l.waiting != [] {
      UpcomingOfWaiting(Taken(l), Taken(l'));
    }
  }

  lemma {:induction false} PushedLast(l: Lists, e: Json)
    ensures Upcoming(l.(waiting := [e] + l.waiting)) == Upcoming(l) + [e]
    decreases |l.waiting|
  {
    var l' := l.(waiting := [e] + l.waiting);
    if l.waiting == [] {
      assert Taken(l').waiting == [] && Taken(l').processing[0] == e;
    } else {
      var n := |l.waiting|;
      assert l'.waiting[n] == l.waiting[n - 1] && l'.waiting[..n] == [e] + l.waiting[..n - 1];
      PushedLast(Taken(l), e);
      UpcomingOfWaiting(Taken(l'), Taken(l).(waiting := [e] + Taken(l).waiting));
    }
  }

  /** A queue, not a stack: enqueued and retried jobs and recovered entries are taken after everything
      that was waiting before them, and acknowledging or burying a job changes no turn. */
  lemma FirstInFirstOut(l: Lists, job: Job, mark: Mark)
    ensures Upcoming(Enqueued(l, job)) == Upcoming(l) + [ToEntry(job)]
    ensures Upcoming(Retried(l, job)) == Upcoming(l) + [ToEntry(NextAttempt(job))]
    ensures l.processing != [] ==> Upcoming(Returned(l)) == Upcoming(l) + [l.processing[|l.processing| - 1]]
    ensures Upcoming(Acknowledged(l, job)) == Upcoming(l) && Upcoming(Buried(l, job, mark)) == Upcoming(l)
    ensures l.waiting != [] ==> Upcoming(Rejected(l, mark)) == Upcoming(l)[1..]
  {
    hide Upcoming, ToEntry, DeadLetter, RemoveFirst;
    PushedLast(l, ToEntry(job));
    PushedLast(Acknowledged(l, job), ToEntry(NextAttempt(job)));
    UpcomingOfWaiting(Acknowledged(l, job), l);
    UpcomingOfWaiting(Buried(l, job, mark), l);
    if l.processing != [] {
      var e := l.processing[|l.processing| - 1];
      PushedLast(l, e);
      UpcomingOfWaiting(Returned(l), l.(waiting := [e] + l.waiting));
    }
    if l.waiting != [] {
      NextIsTaken(l);
      UpcomingOfWaiting(Rejected(l, mark), Taken(l));
    }
  }

  lemma NextIsTaken(l: Lists)
    requires l.waiting != []
    ensures Upcoming(l) == [l.waiting[|l.waiting| - 1]] + Upcoming(Taken(l))
  {
  }
}
