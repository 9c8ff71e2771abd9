/** The fixed-window request limiters of functions/utils/rateLimit.ts. Both limiters share one in-memory map
    from a prefixed client address to the count of requests in the current window and the window's end. */
module RateLimit {
  import opened Common
  import opened Text

  /** `{ count, resetAt }`: requests seen in the window and the instant (ms) the window ends. */
  datatype Entry = Entry(count: int, resetAt: int)

  /** A request passes, or is answered 429 with its error text and the seconds to wait. */
  datatype Verdict = Admit | Reject(error: string, retryAfter: int)

  /** The two request headers the client address is taken from. */
  datatype Headers = Headers(forwardedFor: Option<string>, realIp: Option<string>)

  const GENERAL_PREFIX: string := "rate_limit:"
  const UPLOAD_PREFIX: string := "upload_rate_limit:"
  /** RATE_LIMIT_WINDOW and RATE_LIMIT_MAX when the environment leaves them unset. */
  const DEFAULT_WINDOW_MS: int := 60000
  const DEFAULT_MAX_REQUESTS: int := 100
  const UPLOAD_WINDOW_MS: int := 600000
  const MAX_UPLOADS: int := 5
  const GENERAL_ERROR: string := "Rate limit exceeded"
  const UPLOAD_ERROR: string := "Upload rate limit exceeded"

  /** `x-forwarded-for || x-real-ip || 'unknown'`. */
  function ClientIp(h: Headers): (ip: string)
    ensures ip != ""
    ensures Truthy(h.forwardedFor) ==> ip == h.forwardedFor.value
    ensures !Truthy(h.forwardedFor) && Truthy(h.realIp) ==> ip == h.realIp.value
    ensures !Truthy(h.forwardedFor) && !Truthy(h.realIp) ==> ip == "unknown"
  {
    if Truthy(h.forwardedFor) then h.forwardedFor.value
    else if Truthy(h.realIp) then h.realIp.value
    else "unknown"
  }

  /** `Math.ceil(ms / 1000)` on whole milliseconds. */
  function CeilSeconds(ms: int): (s: int)
    ensures 1000 * (s - 1) < ms <= 1000 * s
  {
    (ms + 999) / 1000
  }

  function Lookup(entries: map<string, Entry>, key: string): Option<Entry>
  {
    if key in entries then Some(entries[key]) else None
  }

  /** No entry, or a window that ended strictly before `now`: the request opens a new window. */
  predicate Expired(e: Option<Entry>, now: int)
  {
    e.None? || now > e.value.resetAt
  }

  /** The decision for a request at `now` given the key's entry. */
  function Decide(e: Option<Entry>, now: int, max: int, error: string): (v: Verdict)
    ensures v.Admit? <==> Expired(e, now) || e.value.count < max
    ensures v.Reject? ==> v == Reject(error, CeilSeconds(e.value.resetAt - now))
  {
    if Expired(e, now) then Admit
    else if e.value.count >= max then Reject(error, CeilSeconds(e.value.resetAt - now))
    else Admit
  }

  /** The key's entry after the request: a fresh window of one, one more request in the same window, or,
      for a refused request, the entry unchanged. */
  function Advance(e: Option<Entry>, now: int, window: int, max: int): (e': Option<Entry>)
    ensures Expired(e, now) ==> e' == Some(Entry(1, now + window))
    ensures !Expired(e, now) && e.value.count < max ==> e' == Some(Entry(e.value.count + 1, e.value.resetAt))
    ensures Decide(e, now, max, "").Reject? ==> e' == e
  {
    if Expired(e, now) then Some(Entry(1, now + window))
    else if e.value.count >= max then e
    else Some(Entry(e.value.count + 1, e.value.resetAt))
  }

  /** The whole map after one request under `key`. */
  function Record(entries: map<string, Entry>, key: string, now: int, window: int, max: int): map<string, Entry>
  {
    match Advance(Lookup(entries, key), now, window, max)
    case None => entries
    case Some(e) => entries[key := e]
  }

  /** The request went down the path that increments an open window (the only path that may sweep). */
  predicate Increments(e: Option<Entry>, now: int, max: int)
  {
    !Expired(e, now) && e.value.count < max
  }

  /** The entries a sweep at `now` keeps: those whose window has not ended before `now`. */
  function Prune(entries: map<string, Entry>, now: int): map<string, Entry>
  {
    map k | k in entries && now <= entries[k].resetAt :: entries[k]
  }

  class RateLimiter {
    /** rateLimitStore. */
    var entries: map<string, Entry>
    /** The general limiter's window and budget, read from the environment at start-up. */
    const windowMs: int
    const maxRequests: int

    constructor (windowMs: int, maxRequests: int)
      ensures entries == map[] && this.windowMs == windowMs && this.maxRequests == maxRequests
    {
      entries := map[];
      this.windowMs := windowMs;
      this.maxRequests := maxRequests;
    }

    /** One request under `key`, shared by both limiters. */
    method Hit(key: string, now: int, window: int, max: int, error: string) returns (v: Verdict)
      modifies this
      ensures v == Decide(Lookup(old(entries), key), now, max, error)
      ensures entries == Record(old(entries), key, now, window, max)
    {
      if key !in entries || now > entries[key].resetAt {
        entries := entries[key := Entry(1, now + window)];
        return Admit;
      }
      var record := entries[key];
      if record.count >= max {
        return Reject(error, CeilSeconds(record.resetAt - now));
      }
      entries := entries[key := Entry(record.count + 1, record.resetAt)];
      v := Admit;
    }

    /** The sweep: every entry whose window ended before `now` is deleted while walking the map. */
    method Cleanup(now: int)
      modifies this
      ensures entries == Prune(old(entries), now)
    {
      var pending := entries.Keys;
      while pending != {}
        invariant pending <= old(entries).Keys
        invariant entries == map k | k in old(entries) && (k in pending || now <= old(entries)[k].resetAt) :: old(entries)[k]
        decreases |pending|
      {
        var k :| k in pending;
        if now > entries[k].resetAt {
          entries := entries - {k};
        }
        pending := pending - {k};
      }
    }

    /** rateLimitMiddleware: `sweep` is the `Math.random() < 0.01` draw; the sweep happens only on the path
        that increments an open window. */
    method CheckGeneral(h: Headers, now: int, sweep: bool) returns (v: Verdict)
      modifies this
      ensures v == Decide(Lookup(old(entries), GENERAL_PREFIX + ClientIp(h)), now, maxRequests, GENERAL_ERROR)
      ensures entries ==
        var after := Record(old(entries), GENERAL_PREFIX + ClientIp(h), now, windowMs, maxRequests);
        if sweep && Increments(Lookup(old(entries), GENERAL_PREFIX + ClientIp(h)), now, maxRequests)
        then Prune(after, now) else after
    {
      var key := GENERAL_PREFIX + ClientIp(h);
      var prior := Lookup(entries, key);
      v := Hit(key, now, windowMs, maxRequests, GENERAL_ERROR);
      if sweep && Increments(prior, now, maxRequests) {
        Cleanup(now);
      }
    }

    /** uploadRateLimitMiddleware: 5 uploads per 10 minutes, never sweeps. */
    method CheckUpload(h: Headers, now: int) returns (v: Verdict)
      modifies this
      ensures v == Decide(Lookup(old(entries), UPLOAD_PREFIX + ClientIp(h)), now, MAX_UPLOADS, UPLOAD_ERROR)
      ensures entries == Record(old(entries), UPLOAD_PREFIX + ClientIp(h), now, UPLOAD_WINDOW_MS, MAX_UPLOADS)
    {
      v := Hit(UPLOAD_PREFIX + ClientIp(h), now, UPLOAD_WINDOW_MS, MAX_UPLOADS, UPLOAD_ERROR);
    }
  }

  /** A request changes no entry but its own, and a refused request changes nothing. */
  lemma RecordTouchesOnlyItsKey(entries: map<string, Entry>, key: string, now: int, window: int, max: int, other: string)
    requires other != key
    ensures Lookup(Record(entries, key, now, window, max), other) == Lookup(entries, other)
    ensures Decide(Lookup(entries, key), now, max, "").Reject? ==> Record(entries, key, now, window, max) == entries
  {
  }

  /** The general and the upload counters of any two clients are different entries. */
  lemma PrefixesSeparate(ip: string, ip': string)
    ensures GENERAL_PREFIX + ip != UPLOAD_PREFIX + ip'
  {
    assert (GENERAL_PREFIX + ip)[0] == 'r';
    assert (UPLOAD_PREFIX + ip')[0] == 'u';
  }

  /** The retry hint of a refused request: at least 0 and at most the window in seconds, when `now` lies in
      the window the entry opened at an earlier request. */
  lemma RetryAfterBounded(e: Entry, now: int, window: int, max: int)
    requires e.resetAt - window <= now <= e.resetAt
    requires Decide(Some(e), now, max, GENERAL_ERROR).Reject?
    ensures 0 <= Decide(Some(e), now, max, GENERAL_ERROR).retryAfter <= CeilSeconds(window)
  {
  }

  /** A sweep at `now` is invisible to every later request: an entry it deletes had a window that ended, and
      an expired entry decides and advances exactly like a missing one. */
  lemma CleanupUnobservable(entries: map<string, Entry>, now: int, later: int, key: string, window: int, max: int)
    requires now <= later
    ensures Decide(Lookup(Prune(entries, now), key), later, max, "") == Decide(Lookup(entries, key), later, max, "")
    ensures Advance(Lookup(Prune(entries, now), key), later, window, max) == Advance(Lookup(entries, key), later, window, max)
  {
  }

  /** The entry of a key after a series of requests at `times`, starting from `e`. */
  function EntryAfter(e: Option<Entry>, times: seq<int>, window: int, max: int): Option<Entry>
  {
    if times == [] then e
    else Advance(EntryAfter(e, times[..|times| - 1], window, max), times[|times| - 1], window, max)
  }

  /** The verdicts of that series, one per request. */
  function Verdicts(e: Option<Entry>, times: seq<int>, window: int, max: int): (vs: seq<Verdict>)
    ensures |vs| == |times|
  {
    if times == [] then []
    else
      var init := times[..|times| - 1];
      Verdicts(e, init, window, max) + [Decide(EntryAfter(e, init, window, max), times[|times| - 1], max, "")]
  }

  function Min(a: int, b: int): int
  {
    if a <= b then a else b
  }

  /** Requests from a new client that all arrive within the window the first one opens: the count climbs by
      one per request up to the budget and the window end stays put. */
  lemma {:induction false} EntryWithinWindow(times: seq<int>, window: int, max: int)
    requires |times| >= 1 && max >= 1
    requires forall i :: 0 <= i < |times| ==> times[i] <= times[0] + window
    ensures EntryAfter(None, times, window, max) == Some(Entry(Min(|times|, max), times[0] + window))
    decreases |times|
  {
    if |times| > 1 {
      var init := times[..|times| - 1];
      assert init[0] == times[0];
      EntryWithinWindow(init, window, max);
    }
  }

  /** In one window, request number i (from 0) passes iff fewer than `max` came before it. */
  lemma {:induction false} OneWindow(times: seq<int>, window: int, max: int)
    requires max >= 1
    requires forall i :: 0 <= i < |times| ==> times[i] <= times[0] + window
    ensures forall i :: 0 <= i < |times| ==> (Verdicts(None, times, window, max)[i].Admit? <==> i < max)
    decreases |times|
  {
    if |times| > 0 {
      var init := times[..|times| - 1];
      var vs := Verdicts(None, times, window, max);
      if |init| > 0 {
        assert init[0] == times[0];
        OneWindow(init, window, max);
        EntryWithinWindow(init, window, max);
      }
      assert vs[..|init|] == Verdicts(None, init, window, max);
      forall i | 0 <= i < |init|
        ensures vs[i] == Verdicts(None, init, window, max)[i]
      {
        assert vs[..|init|][i] == vs[i];
      }
    }
  }

  /** With the default budget, 100 requests from one client within a minute pass and the 101st is refused. */
  lemma HundredAndFirstRefused(times: seq<int>)
    requires |times| == DEFAULT_MAX_REQUESTS + 1
    requires forall i :: 0 <= i < |times| ==> times[i] <= times[0] + DEFAULT_WINDOW_MS
    ensures forall i :: 0 <= i < DEFAULT_MAX_REQUESTS ==> Verdicts(None, times, DEFAULT_WINDOW_MS, DEFAULT_MAX_REQUESTS)[i].Admit?
    ensures Verdicts(None, times, DEFAULT_WINDOW_MS, DEFAULT_MAX_REQUESTS)[DEFAULT_MAX_REQUESTS].Reject?
  {
    OneWindow(times, DEFAULT_WINDOW_MS, DEFAULT_MAX_REQUESTS);
  }
}
