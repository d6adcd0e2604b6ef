/** The fixed-window rate limiter: one counter per key, with an expiry set by its first hit.

    Times are milliseconds and never decrease along a run.  A key stands for a namespace
    with a hashed subject; different keys never share a counter. */
module RateLimit {
  datatype Cell = Cell(count: nat, expiresAt: int)

  type Key = string

  type Store = map<Key, Cell>

  /** What Redis does during one call.  The script may have been applied although its
      answer was lost; the time-to-live is read in a call of its own. */
  datatype Redis = Up(ttl: int) | TtlFails | ScriptFails(applied: bool)

  datatype Reply = Allowed(count: nat, remaining: nat) | TooMany(retryAfter: int) | Unavailable

  predicate IsLive(store: Store, k: Key, now: int) {
    k in store && now < store[k].expiresAt
  }

  /** INCR, and EXPIRE when the counter is new. */
  function Hit(store: Store, k: Key, window: int, now: int): Store {
    if IsLive(store, k, now) then store[k := store[k].(count := store[k].count + 1)]
    else store[k := Cell(1, now + window)]
  }

  function Max(a: int, b: int): int {
    if a >= b then a else b
  }

  function ConsumeStore(store: Store, k: Key, window: int, now: int, redis: Redis): Store {
    if redis.ScriptFails? && !redis.applied then store else Hit(store, k, window, now)
  }

  function OnOutage(limit: nat, failClosed: bool): Reply {
    if failClosed then Unavailable else Allowed(0, limit)
  }

  function ConsumeReply(store: Store, k: Key, limit: nat, window: int, now: int, redis: Redis, failClosed: bool): Reply {
    if redis.ScriptFails? then OnOutage(limit, failClosed)
    else
      var count := Hit(store, k, window, now)[k].count;
      if count <= limit then Allowed(count, limit - count)
      else if redis.TtlFails? then OnOutage(limit, failClosed)
      else TooMany(Max(redis.ttl, 1))
  }

  class RateLimitService {
    var store: Store
    const failClosed: bool

    constructor (failClosed: bool)
      ensures store == map[] && this.failClosed == failClosed
    {
      store, this.failClosed := map[], failClosed;
    }

    method Consume(k: Key, limit: nat, windowSeconds: int, now: int, redis: Redis) returns (reply: Reply)
      modifies this`store
      ensures store == ConsumeStore(old(store), k, windowSeconds * 1000, now, redis)
      ensures reply == ConsumeReply(old(store), k, limit, windowSeconds * 1000, now, redis, failClosed)
      ensures var live := k in old(store) && now < old(store)[k].expiresAt;
        var count := if live then old(store)[k].count + 1 else 1;
        && store == (if redis == ScriptFails(false) then old(store)
                     else old(store)[k := Cell(count, if live then old(store)[k].expiresAt else now + 1000 * windowSeconds)])
        && (reply.Unavailable? <==> failClosed && (redis.ScriptFails? || (redis.TtlFails? && count > limit)))
        && (reply.TooMany? <==> redis.Up? && count > limit)
        && (reply.TooMany? ==> reply.retryAfter == if redis.ttl > 1 then redis.ttl else 1)
        && (reply.Allowed? && !redis.ScriptFails? && count <= limit ==> reply.count == count && reply.remaining == limit - count)
        && (reply.Allowed? && (redis.ScriptFails? || count > limit) ==> reply.count == 0 && reply.remaining == limit)
    {
      if redis.ScriptFails? {
        if redis.applied { store := Hit(store, k, windowSeconds * 1000, now); }
        if failClosed { return Unavailable; }
        return Allowed(0, limit);
      }
      var current := 1;
      if k in store && now < store[k].expiresAt {
        current := store[k].count + 1;
        store := store[k := Cell(current, store[k].expiresAt)];
      } else {
        store := store[k := Cell(current, now + windowSeconds * 1000)];
      }
      if current > limit {
        if redis.TtlFails? {
          if failClosed { return Unavailable; }
          return Allowed(0, limit);
        }
        return TooMany(if redis.ttl >= 1 then redis.ttl else 1);
      }
      reply := Allowed(current, limit - current);
    }
  }

  // ---- runs --------------------------------------------------------------------

  datatype Request = Request(key: Key, at: int, redis: Redis)

  datatype Policy = Policy(limit: nat, window: int)

  /** Call sites use one limit and one window for all subjects of a namespace. */
  type Policies = Key -> Policy

  predicate Admits(store: Store, policies: Policies, r: Request, failClosed: bool) {
    ConsumeReply(store, r.key, policies(r.key).limit, policies(r.key).window, r.at, r.redis, failClosed).Allowed?
  }

  function After(store: Store, policies: Policies, r: Request): Store {
    ConsumeStore(store, r.key, policies(r.key).window, r.at, r.redis)
  }

  predicate Ordered(trace: seq<Request>, now: int) {
    trace == [] || (now <= trace[0].at && Ordered(trace[1..], trace[0].at))
  }

  /** Requests for k admitted at times in [lo, hi). */
  function Admitted(store: Store, policies: Policies, trace: seq<Request>, failClosed: bool, k: Key, lo: int, hi: int): nat
    decreases |trace|
  {
    if trace == [] then 0
    else
      var r := trace[0];
      (if r.key == k && lo <= r.at < hi && Admits(store, policies, r, failClosed) then 1 else 0)
      + Admitted(After(store, policies, r), policies, trace[1..], failClosed, k, lo, hi)
  }

  function Hits(trace: seq<Request>, k: Key, lo: int, hi: int): nat
    decreases |trace|
  {
    if trace == [] then 0 else (if trace[0].key == k && lo <= trace[0].at < hi then 1 else 0) + Hits(trace[1..], k, lo, hi)
  }

  /** No outage matters when the limiter fails closed. */
  predicate Counted(trace: seq<Request>, failClosed: bool) {
    failClosed || forall i :: 0 <= i < |trace| ==> trace[i].redis.Up?
  }

  /** 2 * limit - 1, or nothing at all for a limit of zero. */
  function Twice(limit: nat): nat {
    if limit == 0 then 0 else 2 * limit - 1
  }

  function LeftOf(c: Cell, limit: nat): nat {
    if c.count < limit then limit - c.count else 0
  }

  /** How many admissions in [lo, lo + window) are still possible. */
  function Cap(store: Store, k: Key, p: Policy, now: int, lo: int): nat {
    var hi := lo + p.window;
    if now >= hi then 0
    else if !IsLive(store, k, now) then (if now >= lo then p.limit else Twice(p.limit))
    else if store[k].expiresAt >= hi then LeftOf(store[k], p.limit)
    else if store[k].expiresAt > lo then LeftOf(store[k], p.limit) + p.limit
    else Twice(p.limit)
  }

  lemma CapOnlyFalls(store: Store, k: Key, p: Policy, now: int, later: int, lo: int)
    requires now <= later
    ensures Cap(store, k, p, later, lo) <= Cap(store, k, p, now, lo)
  {
  }

  lemma HitUsesUpCap(store: Store, policies: Policies, r: Request, failClosed: bool, lo: int)
    requires failClosed || r.redis.Up?
    requires policies(r.key).window > 0
    ensures var p := policies(r.key);
      (if lo <= r.at < lo + p.window && Admits(store, policies, r, failClosed) then 1 else 0)
        + Cap(After(store, policies, r), r.key, p, r.at, lo) <= Cap(store, r.key, p, r.at, lo)
  {
  }

  lemma {:induction false} AdmittedWithinCap(
    store: Store, policies: Policies, trace: seq<Request>, failClosed: bool, k: Key, now: int, lo: int)
    requires Ordered(trace, now) && Counted(trace, failClosed) && policies(k).window > 0
    ensures Admitted(store, policies, trace, failClosed, k, lo, lo + policies(k).window) <= Cap(store, k, policies(k), now, lo)
    decreases |trace|
  {
    if trace != [] {
      var r := trace[0];
      assert Counted(trace[1..], failClosed);
      AdmittedWithinCap(After(store, policies, r), policies, trace[1..], failClosed, k, r.at, lo);
      if r.key == k { HitUsesUpCap(store, policies, r, failClosed, lo); }
      CapOnlyFalls(store, k, policies(k), now, r.at, lo);
    }
  }

  /** Stored counters have seen at least one hit. */
  ghost predicate Positive(store: Store) {
    forall k :: k in store ==> store[k].count >= 1
  }

  lemma HitKeepsPositive(store: Store, policies: Policies, r: Request)
    requires Positive(store)
    ensures Positive(After(store, policies, r))
  {
  }

  /** Whatever requests for whatever keys came before or fall in between, no stretch of
      time as long as the window sees more than 2 * limit - 1 admissions of a key. */
  lemma AtMostTwiceTheLimit(
    store: Store, policies: Policies, trace: seq<Request>, failClosed: bool, k: Key, now: int, lo: int)
    requires Ordered(trace, now) && Counted(trace, failClosed) && policies(k).window > 0
    requires Positive(store)
    ensures Admitted(store, policies, trace, failClosed, k, lo, lo + policies(k).window) <= Twice(policies(k).limit)
  {
    AdmittedWithinCap(store, policies, trace, failClosed, k, now, lo);
  }

  function AfterAll(store: Store, policies: Policies, trace: seq<Request>): Store
    decreases |trace|
  {
    if trace == [] then store else AfterAll(After(store, policies, trace[0]), policies, trace[1..])
  }

  lemma {:induction false} RunKeepsPositive(store: Store, policies: Policies, trace: seq<Request>)
    requires Positive(store)
    ensures Positive(AfterAll(store, policies, trace))
    decreases |trace|
  {
    if trace != [] {
      HitKeepsPositive(store, policies, trace[0]);
      RunKeepsPositive(After(store, policies, trace[0]), policies, trace[1..]);
    }
  }

  /** The same over whole runs from the empty store: the earlier requests may have met any
      outage, the bound holds for the stretch in which none does. */
  lemma AtMostTwiceTheLimitAfterAnyRun(
    policies: Policies, earlier: seq<Request>, trace: seq<Request>, failClosed: bool, k: Key, now: int, lo: int)
    requires Ordered(trace, now) && Counted(trace, failClosed) && policies(k).window > 0
    ensures Admitted(AfterAll(map[], policies, earlier), policies, trace, failClosed, k, lo, lo + policies(k).window)
      <= Twice(policies(k).limit)
  {
    RunKeepsPositive(map[], policies, earlier);
    AtMostTwiceTheLimit(AfterAll(map[], policies, earlier), policies, trace, failClosed, k, now, lo);
  }

  // ---- inside one window -------------------------------------------------------

  lemma {:induction false} NothingBefore(
    store: Store, policies: Policies, trace: seq<Request>, failClosed: bool, k: Key, now: int, lo: int, hi: int)
    requires Ordered(trace, now) && now >= hi
    ensures Admitted(store, policies, trace, failClosed, k, lo, hi) == 0 && Hits(trace, k, lo, hi) == 0
    decreases |trace|
  {
    if trace != [] {
      NothingBefore(After(store, policies, trace[0]), policies, trace[1..], failClosed, k, trace[0].at, lo, hi);
    }
  }

  function Min(a: nat, b: nat): nat {
    if a <= b then a else b
  }

  lemma {:induction false} RestOfWindow(
    store: Store, policies: Policies, trace: seq<Request>, failClosed: bool, k: Key, now: int, lo: int)
    requires Ordered(trace, now) && Counted(trace, false)
    requires k in store && lo <= now && store[k].expiresAt == lo + policies(k).window
    ensures Admitted(store, policies, trace, failClosed, k, lo, lo + policies(k).window)
      == Min(LeftOf(store[k], policies(k).limit), Hits(trace, k, lo, lo + policies(k).window))
    decreases |trace|
  {
    var hi := lo + policies(k).window;
    if trace != [] {
      var r := trace[0];
      assert Counted(trace[1..], false);
      if r.at >= hi {
        NothingBefore(store, policies, trace, failClosed, k, r.at, lo, hi);
      } else {
        RestOfWindow(After(store, policies, r), policies, trace[1..], failClosed, k, r.at, lo);
      }
    }
  }

  /** From a window's first hit to its expiry exactly the first `limit` requests are
      admitted: never more, and never fewer while there are requests. */
  lemma WindowAdmitsExactlyTheLimit(
    store: Store, policies: Policies, trace: seq<Request>, failClosed: bool, k: Key)
    requires trace != [] && Ordered(trace, trace[0].at) && Counted(trace, false)
    requires trace[0].key == k && !IsLive(store, k, trace[0].at) && policies(k).window > 0
    ensures var lo := trace[0].at; var hi := lo + policies(k).window;
      Admitted(store, policies, trace, failClosed, k, lo, hi) == Min(policies(k).limit, Hits(trace, k, lo, hi))
  {
    var r := trace[0];
    assert Counted(trace[1..], false);
    RestOfWindow(After(store, policies, r), policies, trace[1..], failClosed, k, r.at, r.at);
  }

  // ---- rejected requests have no effect ----------------------------------------

  /** The run without the requests that were turned away. */
  function WithoutRejected(store: Store, policies: Policies, trace: seq<Request>): seq<Request>
    decreases |trace|
  {
    if trace == [] then []
    else
      var rest := WithoutRejected(After(store, policies, trace[0]), policies, trace[1..]);
      if Admits(store, policies, trace[0], false) then [trace[0]] + rest else rest
  }

  predicate AllAdmitted(store: Store, policies: Policies, trace: seq<Request>)
    decreases |trace|
  {
    trace == [] || (Admits(store, policies, trace[0], false) && AllAdmitted(After(store, policies, trace[0]), policies, trace[1..]))
  }

  /** Two stores that answer alike: same expiries, same counts up to the limit. */
  ghost predicate Alike(a: Store, b: Store, policies: Policies, now: int) {
    forall k: Key | policies(k).limit > 0 ::
      && (IsLive(a, k, now) <==> IsLive(b, k, now))
      && (IsLive(a, k, now) ==>
            a[k].expiresAt == b[k].expiresAt && LeftOf(a[k], policies(k).limit) == LeftOf(b[k], policies(k).limit))
  }

  lemma AlikeStep(a: Store, b: Store, policies: Policies, r: Request, now: int)
    requires Alike(a, b, policies, now) && now <= r.at && r.redis.Up?
    ensures Admits(a, policies, r, false) == Admits(b, policies, r, false)
    ensures Admits(a, policies, r, false) ==> Alike(After(a, policies, r), After(b, policies, r), policies, r.at)
    ensures !Admits(a, policies, r, false) ==> Alike(After(a, policies, r), b, policies, r.at)
  {
  }

  /** A rejected request never extends the window nor costs anyone else a place: leaving
      all rejected requests out of a run, exactly the same requests are admitted. */
  lemma {:induction false} RejectedRequestsHaveNoEffect(a: Store, b: Store, policies: Policies, trace: seq<Request>, now: int)
    requires Ordered(trace, now) && Counted(trace, false) && Alike(a, b, policies, now)
    ensures AllAdmitted(b, policies, WithoutRejected(a, policies, trace))
    decreases |trace|
  {
    if trace != [] {
      var r := trace[0];
      assert Counted(trace[1..], false);
      assert r.redis.Up?;
      AlikeStep(a, b, policies, r, now);
      if Admits(a, policies, r, false) {
        RejectedRequestsHaveNoEffect(After(a, policies, r), After(b, policies, r), policies, trace[1..], r.at);
        var rest := WithoutRejected(After(a, policies, r), policies, trace[1..]);
        assert ([r] + rest)[1..] == rest;
      } else {
        RejectedRequestsHaveNoEffect(After(a, policies, r), b, policies, trace[1..], r.at);
      }
    }
  }

  // ---- the bound is attained, and needs its hypothesis -------------------------

  function Repeat(k: Key, at: int, n: nat): (out: seq<Request>)
    ensures |out| == n
  {
    if n == 0 then [] else [Request(k, at, Up(1))] + Repeat(k, at, n - 1)
  }

  /** One request opens the window, limit - 1 come just before it closes, limit just after. */
  function Burst(k: Key, limit: nat, window: int): seq<Request>
    requires limit >= 1
  {
    [Request(k, 0, Up(1))] + (Repeat(k, window - 1, limit - 1) + Repeat(k, window, limit))
  }

  lemma {:induction false} RepeatIsAdmitted(
    store: Store, policies: Policies, k: Key, at: int, n: nat, rest: seq<Request>, lo: int, hi: int)
    requires IsLive(store, k, at) && store[k].count + n <= policies(k).limit && lo <= at < hi
    ensures Admitted(store, policies, Repeat(k, at, n) + rest, false, k, lo, hi)
      == n + Admitted(store[k := Cell(store[k].count + n, store[k].expiresAt)], policies, rest, false, k, lo, hi)
    decreases n
  {
    if n == 0 {
      assert Repeat(k, at, n) + rest == rest;
      assert store[k := Cell(store[k].count, store[k].expiresAt)] == store;
    } else {
      var r := Request(k, at, Up(1));
      assert (Repeat(k, at, n) + rest)[1..] == Repeat(k, at, n - 1) + rest;
      var next := After(store, policies, r);
      RepeatIsAdmitted(next, policies, k, at, n - 1, rest, lo, hi);
      assert next[k := Cell(next[k].count + (n - 1), next[k].expiresAt)] == store[k := Cell(store[k].count + n, store[k].expiresAt)];
    }
  }

  /** The bound of AtMostTwiceTheLimit is reached for every limit. */
  lemma TwiceTheLimitIsAttained(policies: Policies, k: Key)
    requires policies(k).limit >= 1 && policies(k).window >= 2
    ensures var p := policies(k);
      Admitted(map[], policies, Burst(k, p.limit, p.window), false, k, p.window - 1, 2 * p.window - 1) == Twice(p.limit)
  {
    var p := policies(k);
    var limit, window := p.limit, p.window;
    var lo, hi := window - 1, 2 * window - 1;
    var tail := Repeat(k, window - 1, limit - 1) + Repeat(k, window, limit);
    assert Burst(k, limit, window)[1..] == tail;
    var s1 := After(map[], policies, Request(k, 0, Up(1)));
    assert s1 == map[k := Cell(1, window)];
    RepeatIsAdmitted(s1, policies, k, window - 1, limit - 1, Repeat(k, window, limit), lo, hi);
    SecondWindowIsAdmitted(s1[k := Cell(limit, window)], policies, k, lo);
  }

  lemma SecondWindowIsAdmitted(store: Store, policies: Policies, k: Key, lo: int)
    requires var p := policies(k); p.limit >= 1 && p.window >= 2 && lo <= p.window && k in store && store[k].expiresAt == p.window
    ensures var p := policies(k);
      Admitted(store, policies, Repeat(k, p.window, p.limit), false, k, lo, 2 * p.window - 1) == p.limit
  {
    var p := policies(k);
    var opening := Request(k, p.window, Up(1));
    assert Repeat(k, p.window, p.limit)[1..] == Repeat(k, p.window, p.limit - 1) + [];
    RepeatIsAdmitted(After(store, policies, opening), policies, k, p.window, p.limit - 1, [], lo, 2 * p.window - 1);
  }

  /** Failing open, an over-limit request gets in when only the read of its time-to-live
      fails: the limit then binds nobody. */
  lemma FailOpenAdmitsOverLimit(store: Store, policies: Policies, r: Request)
    ensures Admits(store, policies, r, false) <==>
      !r.redis.Up? || Hit(store, r.key, policies(r.key).window, r.at)[r.key].count <= policies(r.key).limit
    ensures Admits(store, policies, r, true) <==>
      !r.redis.ScriptFails? && Hit(store, r.key, policies(r.key).window, r.at)[r.key].count <= policies(r.key).limit
  {
  }
}
