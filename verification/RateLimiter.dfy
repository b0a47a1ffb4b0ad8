/** The fixed-window rate limiter (src/cache/redis_rate_limiter.cc:9-16, 28-46). Redis and the limiter
    read one clock of whole seconds; a key that has reached its expiry is as good as absent. */
module RateLimiter {

  datatype Name = Name(kind: string, identity: string)

  datatype Key = Key(name: Name, bucket: int)

  type pos = x: int | x >= 1 witness 1

  datatype Counter = Counter(count: pos, expiresAt: int)

  type Store = map<Key, Counter>

  /** What the caller gets back; the default lets the call through. */
  datatype Verdict = Verdict(allowed: bool, retryAfter: int)

  const PASS := Verdict(true, 0)

  /** How the round trip to Redis went: answered, script run but its reply lost or malformed, not run. */
  datatype Trip = Answered | ReplyLost | NotRun

  datatype Call = Call(name: Name, limit: nat, window: nat, now: int, trip: Trip)

  /** Integer division of the source language: towards zero. */
  function Quotient(a: int, b: int): int
    requires b > 0
  {
    if a >= 0 then a / b else -((-a) / b)
  }

  /** Calls that are let through without asking Redis. */
  predicate Unchecked(c: Call) {
    c.name.kind == "" || c.name.identity == "" || c.limit == 0 || c.window == 0
  }

  // ---------------------------------------------------------------- the script and Allow

  predicate Live(store: Store, key: Key, now: int) {
    key in store && now < store[key].expiresAt
  }

  function Incremented(store: Store, key: Key, window: nat, now: int): Counter {
    if Live(store, key, now) then store[key].(count := store[key].count + 1)
    else Counter(1, now + window)
  }

  function KeyOf(c: Call): Key
    requires !Unchecked(c)
  {
    Key(c.name, Quotient(c.now, c.window))
  }

  function Judged(c: Call, counter: Counter): Verdict {
    var ttl := counter.expiresAt - c.now;
    if counter.count <= c.limit then Verdict(true, 0)
    else Verdict(false, if ttl > 0 then ttl else c.window)
  }

  predicate Counts(c: Call) {
    !Unchecked(c) && !c.trip.NotRun?
  }

  function StoreAfter(store: Store, c: Call): Store {
    if Counts(c) then store[KeyOf(c) := Incremented(store, KeyOf(c), c.window, c.now)] else store
  }

  function VerdictOn(store: Store, c: Call): Verdict {
    if Unchecked(c) || !c.trip.Answered? then PASS
    else Judged(c, Incremented(store, KeyOf(c), c.window, c.now))
  }

  class Limiter {
    var store: Store

    constructor ()
      ensures store == map[]
    {
      store := map[];
    }

    method Allow(c: Call) returns (verdict: Verdict)
      modifies this
      ensures store == StoreAfter(old(store), c)
      ensures verdict == VerdictOn(old(store), c)
    {
      if Unchecked(c) {
        return PASS;
      }
      var key := Key(c.name, Quotient(c.now, c.window));
      if c.trip.NotRun? {
        return PASS;
      }
      var count, ttl := EvalScript(key, c.window, c.now);
      if c.trip.ReplyLost? {
        return PASS;
      }
      return Verdict(count <= c.limit, if count <= c.limit then 0 else if ttl > 0 then ttl else c.window);
    }

    /** INCR, EXPIRE on a fresh counter, TTL. */
    method EvalScript(key: Key, window: nat, now: int) returns (count: pos, ttl: int)
      modifies this
      ensures store == old(store)[key := Incremented(old(store), key, window, now)]
      ensures count == store[key].count && ttl == store[key].expiresAt - now
    {
      var live := key in store && now < store[key].expiresAt;
      count := if live then store[key].count + 1 else 1;
      var expiresAt := if live then store[key].expiresAt else now;
      if count == 1 {
        expiresAt := now + window;
      }
      store := store[key := Counter(count, expiresAt)];
      ttl := expiresAt - now;
    }
  }

  // ---------------------------------------------------------------- runs

  function Run(calls: seq<Call>): Store {
    if calls == [] then map[] else StoreAfter(Run(calls[..|calls| - 1]), calls[|calls| - 1])
  }

  /** The answer the i-th call got. */
  function AnswerTo(calls: seq<Call>, i: nat): Verdict
    requires i < |calls|
  {
    VerdictOn(Run(calls[..i]), calls[i])
  }

  /** How many calls so far counted against this name in this bucket. */
  function Used(calls: seq<Call>, name: Name, bucket: int): nat {
    if calls == [] then 0
    else
      var c := calls[|calls| - 1];
      Used(calls[..|calls| - 1], name, bucket) + if Counts(c) && KeyOf(c) == Key(name, bucket) then 1 else 0
  }

  /** How many of them Redis answered with a pass. */
  function Passed(calls: seq<Call>, name: Name, bucket: int): nat {
    if calls == [] then 0
    else
      var i := |calls| - 1;
      var c := calls[i];
      Passed(calls[..i], name, bucket)
      + if Counts(c) && KeyOf(c) == Key(name, bucket) && c.trip.Answered? && AnswerTo(calls, i).allowed then 1 else 0
  }

  /** The clock starts at or after zero and does not go back. */
  predicate Timely(calls: seq<Call>) {
    && (forall i :: 0 <= i < |calls| ==> calls[i].now >= 0)
    && (forall i, j :: 0 <= i < j < |calls| ==> calls[i].now <= calls[j].now)
  }

  /** Calls under one name use one limit and one window. */
  predicate Uniform(calls: seq<Call>, name: Name, limit: nat, window: nat) {
    forall i :: 0 <= i < |calls| && calls[i].name == name ==> calls[i].limit == limit && calls[i].window == window
  }

  // ---------------------------------------------------------------- the counter outlives its bucket

  lemma Bucket(t: int, window: int)
    requires t >= 0 && window > 0
    ensures t / window * window <= t < (t / window + 1) * window && t / window >= 0
  {
    assert t == t / window * window + t % window;
  }

  lemma LaterBucket(t: int, k: int, window: int)
    requires t >= 0 && window > 0 && t >= (k + 1) * window
    ensures t / window > k
  {
    Bucket(t, window);
    Factor(k + 1, t / window + 1, window);
  }

  lemma Factor(a: int, b: int, window: int)
    requires window > 0 && a * window < b * window
    ensures a < b
  {
    assert (b - a) * window > 0;
  }

  ghost predicate Counted(store: Store, calls: seq<Call>, name: Name, window: nat, bucket: int) {
    var key := Key(name, bucket);
    if Used(calls, name, bucket) == 0 then key !in store
    else
      && key in store && store[key].count == Used(calls, name, bucket)
      && (bucket + 1) * window <= store[key].expiresAt
      && calls != [] && store[key].expiresAt <= calls[|calls| - 1].now + window
  }

  /** After any run, a counter holds exactly the calls counted in its bucket and lives past its end. */
  lemma {:induction false} CounterIsExact(calls: seq<Call>, name: Name, limit: nat, window: nat, bucket: int)
    requires Timely(calls) && Uniform(calls, name, limit, window) && window > 0
    ensures Counted(Run(calls), calls, name, window, bucket)
  {
    if calls != [] {
      var i := |calls| - 1;
      var before, c := calls[..i], calls[i];
      CounterIsExact(before, name, limit, window, bucket);
      assert before != [] ==> before[|before| - 1].now <= c.now;
      if Counts(c) && KeyOf(c) == Key(name, bucket) {
        Bucket(c.now, window);
      }
    }
  }

  /** A counter set at t lives until the last second of t's bucket exactly when t is not in the half
      of bucket zero that truncation borrows from below zero. */
  lemma OutlivesItsBucketExactly(t: int, window: int)
    requires window > 0
    ensures (forall u :: t <= u && Quotient(u, window) == Quotient(t, window) ==> u < t + window)
       <==> !(-window < t < 0)
  {
    if -window < t < 0 {
      assert (-t) / window == 0 by { Small(-t, window); }
      assert (t + window) / window == 0 by { Small(t + window, window); }
      assert Quotient(t + window, window) == Quotient(t, window);
    } else {
      forall u | t <= u && Quotient(u, window) == Quotient(t, window) ensures u < t + window {
        if t >= 0 {
          Bucket(t, window);
          Bucket(u, window);
          SameBucket(t / window, window);
        } else {
          Bucket(-t, window);
          NegativeBucket(t, u, window);
        }
      }
    }
  }

  lemma Small(a: int, window: int)
    requires 0 <= a < window
    ensures a / window == 0
  {
  }

  lemma SameBucket(k: int, window: int)
    ensures (k + 1) * window == k * window + window
  {
  }

  lemma NegativeBucket(t: int, u: int, window: int)
    requires window > 0 && t <= -window && t <= u && Quotient(u, window) == Quotient(t, window)
    ensures u < t + window
  {
    Bucket(-t, window);
    var k := (-t) / window;
    Factor(1, k + 1, window);
    if u >= 0 { Bucket(u, window); }
    Bucket(-u, window);
    SameBucket(k, window);
  }

  // ---------------------------------------------------------------- guarantees

  /** Redis answers a call with a pass exactly when its bucket had room, and tells a denied caller to
      come back within a window, in a later bucket. */
  lemma AnswerIsExact(calls: seq<Call>, i: nat)
    requires i < |calls| && Timely(calls) && Counts(calls[i]) && calls[i].trip.Answered?
    requires Uniform(calls, calls[i].name, calls[i].limit, calls[i].window)
    ensures var c, v := calls[i], AnswerTo(calls, i);
      && (v.allowed <==> Used(calls[..i], c.name, c.now / c.window) < c.limit)
      && (!v.allowed ==> 1 <= v.retryAfter <= c.window && (c.now + v.retryAfter) / c.window > c.now / c.window)
  {
    var before, c, v := calls[..i], calls[i], AnswerTo(calls, i);
    var k := c.now / c.window;
    CounterIsExact(before, c.name, c.limit, c.window, k);
    Bucket(c.now, c.window);
    assert before != [] ==> before[|before| - 1].now <= c.now;
    if !v.allowed {
      LaterBucket(c.now + v.retryAfter, k, c.window);
    }
  }

  /** Per bucket: Redis never passes more calls than the limit, and as many as fit when every reply
      arrives. */
  lemma {:induction false} AnsweredQuota(calls: seq<Call>, name: Name, limit: nat, window: nat, bucket: int)
    requires Timely(calls) && Uniform(calls, name, limit, window) && limit > 0 && window > 0
    ensures Passed(calls, name, bucket) <= limit && Passed(calls, name, bucket) <= Used(calls, name, bucket)
    ensures (forall i :: 0 <= i < |calls| ==> calls[i].trip.Answered?) ==>
              var used := Used(calls, name, bucket);
              Passed(calls, name, bucket) == if used < limit then used else limit
  {
    if calls != [] {
      var i := |calls| - 1;
      var before, c := calls[..i], calls[i];
      AnsweredQuota(before, name, limit, window, bucket);
      if Counts(c) && KeyOf(c) == Key(name, bucket) && c.trip.Answered? {
        AnswerIsExact(calls, i);
      }
    }
  }

  /** A checked call under this name that got through, by an answer or for want of one. */
  predicate Through(calls: seq<Call>, i: nat, name: Name)
    requires i < |calls|
  {
    !Unchecked(calls[i]) && calls[i].name == name && AnswerTo(calls, i).allowed
  }

  /** Checked calls under this name in this bucket that got through. */
  function AllPassed(calls: seq<Call>, name: Name, bucket: int): nat {
    if calls == [] then 0
    else
      var i := |calls| - 1;
      AllPassed(calls[..i], name, bucket)
      + if Through(calls, i, name) && KeyOf(calls[i]).bucket == bucket then 1 else 0
  }

  /** Checked calls under this name in this bucket whose round trip failed. */
  function Unanswered(calls: seq<Call>, name: Name, bucket: int): nat {
    if calls == [] then 0
    else
      var c := calls[|calls| - 1];
      Unanswered(calls[..|calls| - 1], name, bucket)
      + if !Unchecked(c) && KeyOf(c) == Key(name, bucket) && !c.trip.Answered? then 1 else 0
  }

  lemma {:induction false} PassesAddUp(calls: seq<Call>, name: Name, bucket: int)
    ensures AllPassed(calls, name, bucket) == Passed(calls, name, bucket) + Unanswered(calls, name, bucket)
  {
    if calls != [] {
      var i := |calls| - 1;
      PassesAddUp(calls[..i], name, bucket);
    }
  }

  /** Per bucket, of all calls that get through: at most the limit, plus those whose round trip failed,
      which always pass. */
  lemma BucketQuota(calls: seq<Call>, name: Name, limit: nat, window: nat, bucket: int)
    requires Timely(calls) && Uniform(calls, name, limit, window) && limit > 0 && window > 0
    ensures AllPassed(calls, name, bucket) == Passed(calls, name, bucket) + Unanswered(calls, name, bucket)
    ensures AllPassed(calls, name, bucket) <= limit + Unanswered(calls, name, bucket)
  {
    AnsweredQuota(calls, name, limit, window, bucket);
    PassesAddUp(calls, name, bucket);
  }

  predicate Within(now: int, from: int, window: nat) {
    from <= now < from + window
  }

  /** Checked calls under a name that got through in the seconds [from, from + window). */
  function AllPassedIn(calls: seq<Call>, name: Name, from: int, window: nat): nat {
    if calls == [] then 0
    else
      var i := |calls| - 1;
      AllPassedIn(calls[..i], name, from, window)
      + if Through(calls, i, name) && Within(calls[i].now, from, window) then 1 else 0
  }

  /** Those among them whose round trip failed. */
  function UnansweredIn(calls: seq<Call>, name: Name, from: int, window: nat): nat {
    if calls == [] then 0
    else
      var c := calls[|calls| - 1];
      UnansweredIn(calls[..|calls| - 1], name, from, window)
      + if !Unchecked(c) && c.name == name && Within(c.now, from, window) && !c.trip.Answered? then 1 else 0
  }

  /** In any span of one window, at most twice the limit gets through, plus the calls whose round trip
      failed. */
  lemma SpanQuota(calls: seq<Call>, name: Name, limit: nat, window: nat, from: nat)
    requires Timely(calls) && Uniform(calls, name, limit, window) && limit > 0 && window > 0
    ensures AllPassedIn(calls, name, from, window) <= 2 * limit + UnansweredIn(calls, name, from, window)
  {
    var k := from / window;
    TwoBuckets(calls, name, limit, window, from);
    AnsweredQuota(calls, name, limit, window, k);
    AnsweredQuota(calls, name, limit, window, k + 1);
  }

  lemma {:induction false} TwoBuckets(calls: seq<Call>, name: Name, limit: nat, window: nat, from: nat)
    requires Timely(calls) && Uniform(calls, name, limit, window) && window > 0
    ensures AllPassedIn(calls, name, from, window) <= Passed(calls, name, from / window)
              + Passed(calls, name, from / window + 1) + UnansweredIn(calls, name, from, window)
  {
    if calls != [] {
      var i := |calls| - 1;
      var c := calls[i];
      TwoBuckets(calls[..i], name, limit, window, from);
      if !Unchecked(c) && c.name == name && Within(c.now, from, window) {
        NextBucket(c.now, from, window);
      }
    }
  }

  lemma NextBucket(t: int, from: int, window: int)
    requires 0 <= from <= t < from + window
    ensures from / window <= t / window <= from / window + 1
  {
    Bucket(t, window);
    Bucket(from, window);
    SameBucket(from / window + 1, window);
    Factor(from / window, t / window + 1, window);
    Factor(t / window, from / window + 2, window);
  }
}
