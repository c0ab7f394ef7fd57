/** The fixed-window rate limiter: a counter per identifier and window, incremented by an atomic
    script that starts the counter's expiry on its first increment. Time is in microseconds. */
module RateLimit {
  import opened Options

  type Key = (string, int)
  datatype Counter = Counter(count: nat, expiry: int)
  type Counters = map<Key, Counter>

  datatype Verdict = Verdict(allowed: bool, limit: int, remaining: int, retryAfter: int)

  /** `w` seconds in microseconds. */
  function Span(w: int): int {
    w * 1_000_000
  }

  /** floor(now / w). */
  function Window(now: int, w: int): int
    requires w >= 1
  {
    now / Span(w)
  }

  /** Whole seconds, rounded up. */
  function CeilSeconds(x: int): int {
    -((-x) / 1_000_000)
  }

  function RetryAfter(now: int, w: int): int
    requires w >= 1
  {
    var wait := CeilSeconds((Window(now, w) + 1) * Span(w) - now);
    if wait < 1 then 1 else wait
  }

  /** INCR then EXPIRE if it counted to one; a key past its expiry is gone. */
  function Script(c: Counters, key: Key, at: int, ttl: int): Counter {
    if key in c && at < c[key].expiry then Counter(c[key].count + 1, c[key].expiry)
    else Counter(1, at + Span(ttl))
  }

  class FixedWindowRateLimiter {
    var counters: Counters
    ghost var calls: seq<Call>

    constructor ()
      ensures counters == map[] && calls == []
      ensures forall w | w >= 1 :: Plays(w)
    {
      counters := map[];
      calls := [];
    }

    /** The counters are what the checks so far make of them, all with window length `w`. */
    ghost predicate Plays(w: int)
      reads this
    {
      w >= 1 && counters == Play(calls, w)
    }

    /** `check`: the clock reads `now`, the script runs at `at`; `None` where it raises. */
    method Check(identifier: string, limit: int, w: int, now: int, at: int) returns (verdict: Option<Verdict>)
      modifies this
      ensures verdict.None? <==> limit < 1 || w < 1
      ensures verdict.None? ==> counters == old(counters) && calls == old(calls)
      ensures verdict.Some? ==>
        var key := (identifier, Window(now, w));
        var counter := if key in old(counters) && at < old(counters)[key].expiry
          then Counter(old(counters)[key].count + 1, old(counters)[key].expiry)
          else Counter(1, at + (w + 1) * 1_000_000);
        && counters == old(counters)[key := counter]
        && verdict.value.allowed == (counter.count <= limit)
        && verdict.value.limit == limit
        && verdict.value.remaining == (if counter.count <= limit then limit - counter.count else 0)
        && verdict.value.retryAfter == RetryAfter(now, w)
      ensures verdict.Some? ==> calls == old(calls) + [Call(identifier, now, at)]
      ensures verdict.Some? && old(Plays(w)) ==> Plays(w) && (verdict.value.allowed <==> Admitted(calls, w, limit))
    {
      if limit < 1 || w < 1 {
        return None;
      }
      var window := Window(now, w);
      var key := (identifier, window);
      var counter := Script(counters, key, at, w + 1);
      counters := counters[key := counter];
      calls := calls + [Call(identifier, now, at)];
      assert calls[..|calls| - 1] == old(calls);
      var left := limit - counter.count;
      verdict := Some(Verdict(counter.count <= limit, limit, if left < 0 then 0 else left, RetryAfter(now, w)));
    }
  }

  // ----- Histories of calls -----

  datatype Call = Call(identifier: string, now: int, at: int)

  function KeyOf(c: Call, w: int): Key
    requires w >= 1
  {
    (c.identifier, Window(c.now, w))
  }

  /** The counters after a history of checks with window length `w`. */
  function Play(calls: seq<Call>, w: int): Counters
    requires w >= 1
  {
    if calls == [] then map[]
    else
      var before, last := Play(calls[..|calls| - 1], w), calls[|calls| - 1];
      before[KeyOf(last, w) := Script(before, KeyOf(last, w), last.at, w + 1)]
  }

  /** Whether the last check of a history was allowed. */
  predicate Admitted(calls: seq<Call>, w: int, limit: int)
    requires w >= 1 && calls != []
  {
    var last := calls[|calls| - 1];
    Script(Play(calls[..|calls| - 1], w), KeyOf(last, w), last.at, w + 1).count <= limit
  }

  function CallsIn(calls: seq<Call>, key: Key, w: int): nat
    requires w >= 1
  {
    if calls == [] then 0
    else CallsIn(calls[..|calls| - 1], key, w) + if KeyOf(calls[|calls| - 1], w) == key then 1 else 0
  }

  function AdmittedIn(calls: seq<Call>, key: Key, w: int, limit: int): nat
    requires w >= 1
  {
    if calls == [] then 0
    else
      AdmittedIn(calls[..|calls| - 1], key, w, limit)
      + if KeyOf(calls[|calls| - 1], w) == key && Admitted(calls, w, limit) then 1 else 0
  }

  /** Admitted checks of one identifier whose clock reading lies in [from, from + w). */
  function AdmittedInSpan(calls: seq<Call>, identifier: string, from: int, w: int, limit: int): nat
    requires w >= 1
  {
    if calls == [] then 0
    else
      var last := calls[|calls| - 1];
      AdmittedInSpan(calls[..|calls| - 1], identifier, from, w, limit)
      + if last.identifier == identifier && from <= last.now < from + Span(w) && Admitted(calls, w, limit) then 1 else 0
  }

  /** Each script runs within one second of its clock reading. */
  predicate Prompt(calls: seq<Call>) {
    forall c | c in calls :: c.now <= c.at <= c.now + 1_000_000
  }

  // ----- Arithmetic of windows -----

  lemma WindowBounds(now: int, w: int)
    requires w >= 1
    ensures Window(now, w) * Span(w) <= now < Window(now, w) * Span(w) + Span(w)
  {
    Euclid(now, Span(w));
  }

  lemma Euclid(a: int, b: int)
    requires b > 0
    ensures (a / b) * b <= a < (a / b) * b + b
  {
  }

  lemma NextWindow(k: int, w: int)
    ensures (k + 1) * Span(w) == k * Span(w) + Span(w)
  {
  }

  lemma WindowUnique(now: int, w: int, k: int)
    requires w >= 1 && k * Span(w) <= now < k * Span(w) + Span(w)
    ensures Window(now, w) == k
  {
    hide Span;
    WindowBounds(now, w);
    var m := Window(now, w);
    if m < k {
      MultiplesOrdered(m + 1, k, Span(w));
      NextWindow(m, w);
    } else if k < m {
      MultiplesOrdered(k + 1, m, Span(w));
      NextWindow(k, w);
    }
  }

  lemma MultiplesOrdered(a: int, b: int, n: int)
    requires a <= b && n >= 0
    ensures a * n <= b * n
  {
    assert (b - a) * n >= 0;
  }

  /** Waiting `RetryAfter` whole seconds, which is between 1 and the window length, reaches a
      later window, and waiting one second less does not. */
  lemma RetryAfterIsExact(now: int, w: int)
    requires w >= 1
    ensures 1 <= RetryAfter(now, w) <= w
    ensures Window(now + Span(RetryAfter(now, w)), w) == Window(now, w) + 1
    ensures Window(now + Span(RetryAfter(now, w) - 1), w) == Window(now, w)
  {
    var k, r := Window(now, w), RetryAfter(now, w);
    WindowBounds(now, w);
    NextWindow(k, w);
    var end := k * Span(w) + Span(w);
    assert end - now <= Span(r) < end - now + Span(1) by {
      hide Window;
    }
    WindowUnique(now + Span(r), w, k + 1);
    WindowUnique(now + Span(r - 1), w, k);
  }

  // ----- Main results -----

  /** While scripts are prompt, a counter outlives its window, so it counts every check in it, and is
      gone two seconds after the next one. */
  lemma {:induction false} CountersCountCalls(calls: seq<Call>, w: int, key: Key)
    requires w >= 1 && Prompt(calls)
    ensures var n, c := CallsIn(calls, key, w), Play(calls, w);
      && (key in c <==> n > 0)
      && (key in c ==>
            && c[key].count == n
            && key.1 * Span(w) + Span(w) + 1_000_000 <= c[key].expiry < key.1 * Span(w) + 2 * Span(w) + 2_000_000)
  {
    hide Window;
    if calls != [] {
      var init, last := calls[..|calls| - 1], calls[|calls| - 1];
      CountersCountCalls(init, w, key);
      if KeyOf(last, w) == key {
        WindowBounds(last.now, w);
        assert last.now <= last.at <= last.now + 1_000_000;
      }
    }
  }

  lemma LastCount(calls: seq<Call>, w: int, limit: int)
    requires w >= 1 && calls != [] && Prompt(calls)
    ensures var init, last := calls[..|calls| - 1], calls[|calls| - 1];
      Admitted(calls, w, limit) <==> CallsIn(init, KeyOf(last, w), w) < limit
  {
    hide Window;
    var init, last := calls[..|calls| - 1], calls[|calls| - 1];
    CountersCountCalls(init, w, KeyOf(last, w));
    WindowBounds(last.now, w);
    assert last.now <= last.at <= last.now + 1_000_000;
  }

  /** Every window admits exactly min(limit, calls) checks per identifier. */
  lemma {:induction false} WindowAdmitsExactly(calls: seq<Call>, w: int, limit: int, key: Key)
    requires w >= 1 && limit >= 1 && Prompt(calls)
    ensures AdmittedIn(calls, key, w, limit) == if CallsIn(calls, key, w) < limit then CallsIn(calls, key, w) else limit
  {
    hide Window, Admitted;
    if calls != [] {
      WindowAdmitsExactly(calls[..|calls| - 1], w, limit, key);
      LastCount(calls, w, limit);
    }
  }

  /** A span of one window length touches two consecutive windows. */
  lemma SpanWindows(from: int, now: int, w: int)
    requires w >= 1 && from <= now < from + Span(w)
    ensures Window(now, w) == Window(from, w) || Window(now, w) == Window(from, w) + 1
  {
    hide Window;
    var k := Window(from, w);
    WindowBounds(from, w);
    NextWindow(k, w);
    if now < k * Span(w) + Span(w) {
      WindowUnique(now, w, k);
    } else {
      WindowUnique(now, w, k + 1);
    }
  }

  lemma {:induction false} SpanIsTwoWindows(calls: seq<Call>, identifier: string, from: int, w: int, limit: int)
    requires w >= 1
    ensures AdmittedInSpan(calls, identifier, from, w, limit)
         <= AdmittedIn(calls, (identifier, Window(from, w)), w, limit)
          + AdmittedIn(calls, (identifier, Window(from, w) + 1), w, limit)
  {
    hide Window, Admitted;
    if calls != [] {
      var last := calls[|calls| - 1];
      SpanIsTwoWindows(calls[..|calls| - 1], identifier, from, w, limit);
      if from <= last.now < from + Span(w) {
        SpanWindows(from, last.now, w);
      }
    }
  }

  /** Any span of one window length admits at most twice the limit per identifier. */
  lemma BurstBound(calls: seq<Call>, identifier: string, from: int, w: int, limit: int)
    requires w >= 1 && limit >= 1 && Prompt(calls)
    ensures AdmittedInSpan(calls, identifier, from, w, limit) <= 2 * limit
  {
    SpanIsTwoWindows(calls, identifier, from, w, limit);
    WindowAdmitsExactly(calls, w, limit, (identifier, Window(from, w)));
    WindowAdmitsExactly(calls, w, limit, (identifier, Window(from, w) + 1));
  }
}
