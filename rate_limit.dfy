/**
 * The request rate limiter: a process-wide singleton whose `limit` counts requests per key
 * with INCR and a window expiry in the key/value store and, whenever the store throws, falls
 * back to an in-memory fixed-window counter per key. Both paths answer success while at most
 * `limit` requests have been counted in the current window.
 */
module RateLimit {
  import opened Wrappers

  /** The options the singleton captured. */
  datatype Options = Options(limit: int, windowSec: int)

  /** An in-memory window: requests counted so far and the second at which the window ends. */
  datatype Rec = Rec(count: int, resetAt: int)

  datatype LimitResult = LimitResult(success: bool, limit: int, remaining: int, reset: int)

  /**
   * The store's answers to one `limit` call: INCR's new count, whether EXPIRE (sent only on
   * a count of 1) succeeded, and TTL's reply; `None` is a command that threw.
   */
  datatype RedisAnswers = RedisAnswers(incr: Option<int>, expireOk: bool, ttl: Option<int>)

  function Max(a: int, b: int): int
  {
    if a < b then b else a
  }

  /** The key the store counts under. */
  function CounterKey(key: string): string
  {
    "ratelimit:" + key
  }

  /** Whether every command of the store path succeeds, so that no fallback happens. */
  predicate RedisAnswered(a: RedisAnswers)
  {
    a.incr.Some? && (a.incr.value == 1 ==> a.expireOk) && a.ttl.Some?
  }

  /**
   * The store path's answer for a new count `current`: success while the count is within
   * the limit, the requests left (never below 0), and the window's end from the key's TTL,
   * or a whole window when the key has no positive TTL.
   */
  function RedisResult(opts: Options, current: int, ttl: int, nowSec: int): (r: LimitResult)
    ensures r.success <==> current <= opts.limit
    ensures r.remaining >= 0 && r.limit == opts.limit
    ensures r.success ==> r.remaining == opts.limit - current
    ensures !r.success ==> r.remaining == 0
    ensures ttl > 0 ==> r.reset == nowSec + ttl
    ensures ttl <= 0 ==> r.reset == nowSec + opts.windowSec
  {
    LimitResult(current <= opts.limit, opts.limit, Max(opts.limit - current, 0),
                nowSec + (if ttl > 0 then ttl else opts.windowSec))
  }

  /**
   * The in-memory path for one request at second `now`: a missing or ended window starts a
   * new one with this request counted; an open window below the limit counts it; a full
   * window refuses it and is left as it is.
   */
  function FallbackStep(rec: Option<Rec>, now: int, opts: Options): (r: (Rec, LimitResult))
    ensures rec.None? || rec.value.resetAt <= now ==>
      r == (Rec(1, now + opts.windowSec), LimitResult(true, opts.limit, opts.limit - 1, now + opts.windowSec))
    ensures rec.Some? && now < rec.value.resetAt ==>
      && r.0.resetAt == rec.value.resetAt && r.1.reset == rec.value.resetAt
      && (r.1.success <==> rec.value.count < opts.limit)
      && r.0.count == (if r.1.success then rec.value.count + 1 else rec.value.count)
      && r.1.remaining == (if r.1.success then opts.limit - r.0.count else 0)
  {
    if rec.None? || rec.value.resetAt <= now then
      (Rec(1, now + opts.windowSec), LimitResult(true, opts.limit, opts.limit - 1, now + opts.windowSec))
    else if rec.value.count < opts.limit then
      var next := rec.value.(count := rec.value.count + 1);
      (next, LimitResult(true, opts.limit, opts.limit - next.count, next.resetAt))
    else (rec.value, LimitResult(false, opts.limit, 0, rec.value.resetAt))
  }

  /** Successive in-memory requests for one key, at the given seconds. */
  function Run(rec: Option<Rec>, times: seq<int>, opts: Options): (Rec, seq<LimitResult>)
    requires |times| > 0 || rec.Some?
    decreases |times|
  {
    if times == [] then (rec.value, [])
    else
      var (r1, res) := FallbackStep(rec, times[0], opts);
      var (r2, rs) := Run(Some(r1), times[1..], opts);
      (r2, [res] + rs)
  }

  /**
   * Inside an open window the i-th further request is the window's `count + i + 1`-th: it
   * succeeds exactly while that number is within the limit, with the requests left as
   * the store path would report them.
   */
  lemma {:induction false} WithinWindow(rec: Rec, times: seq<int>, opts: Options)
    requires forall i :: 0 <= i < |times| ==> times[i] < rec.resetAt
    requires 0 <= rec.count
    ensures var rs := Run(Some(rec), times, opts).1;
      && |rs| == |times|
      && forall i :: 0 <= i < |times| ==>
           && (rs[i].success <==> rec.count + i + 1 <= opts.limit)
           && rs[i].remaining == Max(opts.limit - (rec.count + i + 1), 0)
           && rs[i].reset == rec.resetAt
    decreases |times|
  {
    if times != [] {
      var (r1, res) := FallbackStep(Some(rec), times[0], opts);
      WithinWindow(r1, times[1..], opts);
      var rs := Run(Some(rec), times, opts).1;
      var tail := Run(Some(r1), times[1..], opts).1;
      assert rs == [res] + tail;
      forall i | 0 <= i < |times|
        ensures (rs[i].success <==> rec.count + i + 1 <= opts.limit)
        ensures rs[i].remaining == Max(opts.limit - (rec.count + i + 1), 0)
        ensures rs[i].reset == rec.resetAt
      {
        if i > 0 {
          assert rs[i] == tail[i - 1];
          if rec.count >= opts.limit {
            assert r1.count == rec.count;
          }
        }
      }
    }
  }

  /**
   * For a key with no open window, requests that all fall inside the window the first one
   * opens get exactly the answers of the store path with counts 1, 2, ...; in particular at
   * most `limit` of them succeed.
   */
  lemma FallbackMatchesStore(t0: int, times: seq<int>, opts: Options, ttl: int, nowSec: int)
    requires opts.limit >= 1
    requires forall i :: 0 <= i < |times| ==> times[i] < t0 + opts.windowSec
    ensures var rs := Run(None, [t0] + times, opts).1;
      && |rs| == 1 + |times|
      && (forall k :: 0 <= k < |rs| ==>
            && rs[k].success == RedisResult(opts, k + 1, ttl, nowSec).success
            && rs[k].remaining == RedisResult(opts, k + 1, ttl, nowSec).remaining)
      && forall k :: opts.limit <= k < |rs| ==> !rs[k].success
  {
    var all := [t0] + times;
    assert all[0] == t0 && all[1..] == times;
    var (r1, res) := FallbackStep(None, t0, opts);
    WithinWindow(r1, times, opts);
    var rs := Run(None, all, opts).1;
    var tail := Run(Some(r1), times, opts).1;
    assert rs == [res] + tail;
    forall k | 1 <= k < |rs|
      ensures rs[k].success == RedisResult(opts, k + 1, ttl, nowSec).success
      ensures rs[k].remaining == RedisResult(opts, k + 1, ttl, nowSec).remaining
    {
      assert rs[k] == tail[k - 1];
    }
  }

  class RateLimitState {
    /** The in-memory fallback's windows, by request key. */
    var memoryStore: map<string, Rec>
    /** The singleton, once built: the options of the first `getRateLimiter` call. */
    var limiter: Option<Options>
    /** EXPIRE commands sent to the store: counter key and window length. */
    var expireCalls: seq<(string, int)>

    constructor ()
      ensures memoryStore == map[] && limiter.None? && expireCalls == []
    {
      memoryStore, limiter, expireCalls := map[], None, [];
    }

    /** `getRateLimiter`: the first call's options are kept; later options are ignored. */
    method GetRateLimiter(opts: Options) returns (used: Options)
      modifies this`limiter
      ensures old(limiter).Some? ==> limiter == old(limiter) && used == old(limiter).value
      ensures old(limiter).None? ==> limiter == Some(opts) && used == opts
    {
      if limiter.None? {
        limiter := Some(opts);
      }
      used := limiter.value;
    }

    /**
     * `limit`: the store path when all of its commands answer; otherwise the in-memory
     * window for `key` at the current second. The store's counter was already incremented
     * when a later command throws.
     */
    method Limit(key: string, nowMs: nat, answers: RedisAnswers) returns (result: LimitResult)
      requires limiter.Some?
      modifies this`memoryStore, this`expireCalls
      ensures var opts := limiter.value;
        && (RedisAnswered(answers) ==>
              result == RedisResult(opts, answers.incr.value, answers.ttl.value, nowMs / 1000)
              && memoryStore == old(memoryStore))
        && (!RedisAnswered(answers) ==>
              var step := FallbackStep(if key in old(memoryStore) then Some(old(memoryStore)[key]) else None, nowMs / 1000, opts);
              result == step.1 && memoryStore == old(memoryStore)[key := step.0])
      ensures expireCalls == old(expireCalls)
        + (if answers.incr == Some(1) then [(CounterKey(key), limiter.value.windowSec)] else [])
    {
      var opts := limiter.value;
      var fallback := true;
      if answers.incr.Some? {
        var current := answers.incr.value;
        if current == 1 {
          expireCalls := expireCalls + [(CounterKey(key), opts.windowSec)];
        }
        if (current != 1 || answers.expireOk) && answers.ttl.Some? {
          result := RedisResult(opts, current, answers.ttl.value, nowMs / 1000);
          fallback := false;
        }
      }
      if fallback {
        var now := nowMs / 1000;
        var rec := if key in memoryStore then Some(memoryStore[key]) else None;
        var step := FallbackStep(rec, now, opts);
        memoryStore := memoryStore[key := step.0];
        result := step.1;
      }
    }
  }
}
