/**
 * The request cache behind `tryFetch` and the JSON pipeline of `jFetch`
 * (src/functions/dom/jFetch.tsx).
 *
 * `tryFetch` keeps a process-wide map from a cache key (request URL followed
 * by the body's string form) to an entry that holds the promised response
 * text and, once the request has settled, the time it settled. A call either
 * joins an in-flight request, reuses a settled entry, or installs a fresh
 * in-flight entry and fetches. The model splits a fetching call into `Begin`
 * (decide, and install the in-flight entry) and `Settle` (stamp the entry when
 * the request completes); the clock and the network outcome are parameters.
 */
module FetchCache {
  import opened Wrappers

  /** Two settles of one key closer than this many milliseconds share a response. */
  const MIN_SPACING_MS: int := 2000

  /** `RequestInfo`: a URL string, or a `Request` object whose `url` is used. */
  datatype RequestInfo = UrlString(url: string) | RequestObject(url: string)

  /** The cache key: the URL followed by the body's string form (nothing when there is no body). */
  function CacheKey(input: RequestInfo, body: Option<string>): (key: string)
    ensures |key| == |input.url| + |body.GetOr("")|
    ensures key[..|input.url|] == input.url && key[|input.url|..] == body.GetOr("")
  {
    input.url + body.GetOr("")
  }

  /** One cache slot: still in flight, or settled with the text it cached and the time it settled. */
  datatype Entry = InFlight | Settled(text: Option<string>, responseTime: int)

  /**
   * `tryFetch` tests the response time for JavaScript truthiness, so an entry
   * stamped at time 0 is treated like one still in flight.
   */
  predicate HasResponseTime(e: Entry) {
    e.Settled? && e.responseTime != 0
  }

  datatype FetchOptions = FetchOptions(body: Option<string>, ignoreCache: bool, cacheFreshTime: Option<int>)

  /** `cacheFreshTime` is used only when it is truthy: given and non-zero. */
  predicate FreshTimeGiven(opts: FetchOptions) {
    opts.cacheFreshTime.Some? && opts.cacheFreshTime.value != 0
  }

  /** What a call does with the cache: the three ways of reusing an entry, or a new request. */
  datatype Decision = JoinInFlight | TooFrequent | StillFresh | IssueFetch

  /** The decision `tryFetch` makes for `key` at time `now`, in the order the source tests. */
  function Decide(cache: map<string, Entry>, key: string, now: int, opts: FetchOptions): (d: Decision)
    ensures d == JoinInFlight <==> key in cache && !HasResponseTime(cache[key])
    ensures d == TooFrequent <==>
              key in cache && HasResponseTime(cache[key]) && now - cache[key].responseTime < MIN_SPACING_MS
    ensures d == StillFresh ==> !opts.ignoreCache && FreshTimeGiven(opts)
    ensures d == IssueFetch <==>
              key !in cache ||
              (HasResponseTime(cache[key]) && now - cache[key].responseTime >= MIN_SPACING_MS &&
               (opts.ignoreCache || !FreshTimeGiven(opts) ||
                now - cache[key].responseTime >= opts.cacheFreshTime.value))
  {
    if key in cache && !HasResponseTime(cache[key]) then JoinInFlight
    else if key in cache && now - cache[key].responseTime < MIN_SPACING_MS then TooFrequent
    else if key in cache && !opts.ignoreCache && FreshTimeGiven(opts)
            && now - cache[key].responseTime < opts.cacheFreshTime.value then StillFresh
    else IssueFetch
  }

  /** What the network gave the issuing call: a rejected fetch, or an HTTP response. */
  datatype FetchOutcome = NetworkError | Response(ok: bool, body: string)

  /** The text a settled entry caches: the body of an OK response, nothing otherwise. */
  function CachedText(outcome: FetchOutcome): (t: Option<string>)
    ensures t.Some? <==> outcome.Response? && outcome.ok
    ensures t.Some? ==> t.value == outcome.body
  {
    if outcome.Response? && outcome.ok then Some(outcome.body) else None
  }

  /**
   * What the issuing call itself returns: it reads the body of the original
   * response whatever its status, so a non-OK response still yields its body.
   */
  function IssuerResult(outcome: FetchOutcome): (t: Option<string>)
    ensures t.Some? <==> outcome.Response?
    ensures outcome.Response? ==> t == Some(outcome.body)
  {
    match outcome
    case NetworkError => None
    case Response(_, body) => Some(body)
  }

  /** The cache after a call makes its decision: only a new request changes it. */
  function AfterBegin(cache: map<string, Entry>, key: string, now: int, opts: FetchOptions): (c: map<string, Entry>)
    ensures Decide(cache, key, now, opts) == IssueFetch ==> key in c && c[key] == InFlight
    ensures Decide(cache, key, now, opts) != IssueFetch ==> c == cache
    ensures c.Keys == cache.Keys + {key} || c == cache
    ensures forall k :: k in cache && k != key ==> k in c && c[k] == cache[k]
  {
    if Decide(cache, key, now, opts) == IssueFetch then cache[key := InFlight] else cache
  }

  /** The cache once the issuing call's request has settled at time `now`. */
  function AfterSettle(cache: map<string, Entry>, key: string, outcome: FetchOutcome, now: int): (c: map<string, Entry>)
    ensures key in c && c[key] == Settled(CachedText(outcome), now)
    ensures c.Keys == cache.Keys + {key}
    ensures forall k :: k in cache && k != key ==> c[k] == cache[k]
  {
    cache[key := Settled(CachedText(outcome), now)]
  }

  /** The process-wide `resultCache` map. */
  class ResultCache {
    var entries: map<string, Entry>

    constructor ()
      ensures entries == map[]
    {
      entries := map[];
    }

    /**
     * The synchronous part of `tryFetch`: decide, and install an in-flight
     * entry when a new request is issued. A call that reuses a settled entry
     * also gets that entry's text back; a joining call waits for the pending
     * request instead (see `JoinedCallSeesCachedText`).
     */
    method Begin(key: string, now: int, opts: FetchOptions) returns (d: Decision, reused: Option<string>)
      modifies this
      ensures d == Decide(old(entries), key, now, opts)
      ensures reused == ReusedText(old(entries), key, now, opts)
      ensures entries == AfterBegin(old(entries), key, now, opts)
    {
      var has := key in entries;
      reused := None;
      if has && !HasResponseTime(entries[key]) {
        d := JoinInFlight;
      } else if has && now - entries[key].responseTime < MIN_SPACING_MS {
        d := TooFrequent;
        reused := entries[key].text;
      } else if has && !opts.ignoreCache && FreshTimeGiven(opts)
                && now - entries[key].responseTime < opts.cacheFreshTime.value {
        d := StillFresh;
        reused := entries[key].text;
      } else {
        d := IssueFetch;
        entries := entries[key := InFlight];
      }
    }

    /**
     * The issuing call's request settles at `now`: the entry is stamped with
     * the settle time and holds the OK body (or nothing); on a network error
     * the catch path installs a settled empty entry. Returns the issuing
     * call's own result.
     */
    method Settle(key: string, outcome: FetchOutcome, now: int) returns (result: Option<string>)
      requires key in entries && entries[key] == InFlight
      modifies this
      ensures result == IssuerResult(outcome)
      ensures entries == AfterSettle(old(entries), key, outcome, now)
    {
      var cached := if outcome.Response? && outcome.ok then Some(outcome.body) else None;
      entries := entries[key := Settled(cached, now)];
      match outcome {
        case NetworkError =>
          result := None;
          entries := entries[key := Settled(None, now)];
        case Response(_, body) =>
          result := Some(body);
      }
    }
  }

  /**
   * The text a call that reuses a settled entry receives at once: the text
   * that entry cached. Only a reuse returns text here.
   */
  function ReusedText(cache: map<string, Entry>, key: string, now: int, opts: FetchOptions): (t: Option<string>)
    ensures t.Some? ==> Decide(cache, key, now, opts) in {TooFrequent, StillFresh} && t == cache[key].text
    ensures Decide(cache, key, now, opts) in {TooFrequent, StillFresh} ==> t == cache[key].text
    ensures Decide(cache, key, now, opts) !in {TooFrequent, StillFresh} ==> t.None?
  {
    var d := Decide(cache, key, now, opts);
    if d == TooFrequent || d == StillFresh then cache[key].text else None
  }

  /**
   * A call soon after a request settled gets exactly what that request
   * cached: the body of an OK response, and nothing after a failure.
   */
  lemma ReuseSeesSettledText(cache: map<string, Entry>, key: string, outcome: FetchOutcome,
                             settledAt: int, now: int, opts: FetchOptions)
    requires settledAt != 0 && now - settledAt < MIN_SPACING_MS
    ensures Decide(AfterSettle(cache, key, outcome, settledAt), key, now, opts) == TooFrequent
    ensures ReusedText(AfterSettle(cache, key, outcome, settledAt), key, now, opts) == CachedText(outcome)
    ensures outcome.Response? && outcome.ok ==>
              ReusedText(AfterSettle(cache, key, outcome, settledAt), key, now, opts) == Some(outcome.body)
  {
  }

  /** A caller that joins a pending request receives what the issuing call cached. */
  lemma JoinedCallSeesCachedText(cache: map<string, Entry>, key: string, opts: FetchOptions,
                                 t0: int, t1: int, outcome: FetchOutcome)
    requires Decide(cache, key, t0, opts) == IssueFetch
    ensures Decide(AfterBegin(cache, key, t0, opts), key, t1, opts) == JoinInFlight
    ensures AfterBegin(AfterBegin(cache, key, t0, opts), key, t1, opts) == AfterBegin(cache, key, t0, opts)
    ensures AfterSettle(AfterBegin(cache, key, t0, opts), key, outcome, t1)[key].text == CachedText(outcome)
  {
  }

  /** `ignoreCache` does not bypass the 2000 ms floor: a recent settle is reused regardless. */
  lemma IgnoreCacheStillHonoursFloor(cache: map<string, Entry>, key: string, now: int, opts: FetchOptions)
    requires key in cache && HasResponseTime(cache[key])
    requires now - cache[key].responseTime < MIN_SPACING_MS
    ensures Decide(cache, key, now, opts) == TooFrequent
    ensures Decide(cache, key, now, opts.(ignoreCache := true)) == TooFrequent
  {
  }

  /** Without a (truthy) `cacheFreshTime`, a settled entry older than the floor is always refetched. */
  lemma NoFreshTimeAlwaysRefetches(cache: map<string, Entry>, key: string, now: int, opts: FetchOptions)
    requires key in cache && HasResponseTime(cache[key])
    requires now - cache[key].responseTime >= MIN_SPACING_MS
    requires !FreshTimeGiven(opts)
    ensures Decide(cache, key, now, opts) == IssueFetch
  {
  }

  /** Beyond the floor, a settled entry is reused exactly while it is younger than `cacheFreshTime`. */
  lemma FreshnessWindow(cache: map<string, Entry>, key: string, now: int, window: int, body: Option<string>)
    requires key in cache && HasResponseTime(cache[key]) && window != 0
    requires now - cache[key].responseTime >= MIN_SPACING_MS
    ensures Decide(cache, key, now, FetchOptions(body, false, Some(window))) == StillFresh
            <==> now - cache[key].responseTime < window
  {
  }

  /** Different bodies sent to the same URL are cached under different keys. */
  lemma DistinctBodiesDistinctKeys(input: RequestInfo, a: string, b: string)
    requires a != b
    ensures CacheKey(input, Some(a)) != CacheKey(input, Some(b))
  {
    var ka, kb := CacheKey(input, Some(a)), CacheKey(input, Some(b));
    assert ka[|input.url|..] == a && kb[|input.url|..] == b;
  }

  /** Plain concatenation is not injective: a URL ending in the body's text collides with a bodyless URL. */
  lemma CacheKeyCanCollide()
    ensures CacheKey(UrlString("https://x/ab"), None) == CacheKey(UrlString("https://x/a"), Some("b"))
  {
    assert "https://x/a" + "b" == "https://x/ab";
  }

  /**
   * The scenario of a pool-list URL: fetched at t0, reused half a second later
   * because it is fresh, reused at t0 + 1500 ms within the floor even with
   * a shorter freshness window, and refetched only once both windows have passed.
   */
  lemma PoolListScenario(key: string, t0: int)
    requires t0 > 0
    ensures
      var opts := FetchOptions(None, false, Some(1000));
      var c1 := AfterBegin(map[], key, t0 - 1, opts);
      var c2 := AfterSettle(c1, key, Response(true, "[1,2,3]"), t0);
      && Decide(map[], key, t0 - 1, opts) == IssueFetch
      && Decide(c2, key, t0 + 500, opts) == TooFrequent
      && Decide(c2, key, t0 + 1500, opts) == TooFrequent
      && Decide(c2, key, t0 + 2500, opts) == IssueFetch
      && c2[key].text == Some("[1,2,3]")
  {
  }

  /** How a transform returned by `afterJson` behaves: it throws, returns nothing, or returns a value. */
  datatype Transformed<T> = Threw | Nullish | Value(v: T)

  /**
   * `jFetch`'s pipeline over the text `tryFetch` produced. An empty or absent
   * text gives nothing; `beforeJson`'s result replaces the text unless it is
   * nullish; an empty renamed text gives nothing; a parse failure or a
   * throwing `afterJson` gives nothing; a nullish `afterJson` result falls
   * back to the parsed value.
   */
  function JFetch<J>(rawText: Option<string>, beforeJson: Option<string -> Option<string>>,
                     parse: string -> Option<J>, afterJson: Option<J -> Transformed<J>>): (r: Option<J>)
    ensures rawText.None? || rawText == Some("") ==> r.None?
    ensures r.Some? <==>
              && rawText.Some? && rawText.value != ""
              && Renamed(rawText.value, beforeJson) != ""
              && parse(Renamed(rawText.value, beforeJson)).Some?
              && !(afterJson.Some? && afterJson.value(parse(Renamed(rawText.value, beforeJson)).value).Threw?)
    ensures rawText.Some? && rawText.value != "" && Renamed(rawText.value, beforeJson) != "" ==>
              var json := parse(Renamed(rawText.value, beforeJson));
              && (json.Some? && afterJson.None? ==> r == json)
              && (json.Some? && afterJson.Some? && afterJson.value(json.value).Nullish? ==> r == json)
              && (json.Some? && afterJson.Some? && afterJson.value(json.value).Value? ==>
                    r == Some(afterJson.value(json.value).v))
  {
    match rawText
    case None => None
    case Some(text) =>
      if text == "" then None
      else
        var renamed := Renamed(text, beforeJson);
        if renamed == "" then None
        else
          match parse(renamed)
          case None => None
          case Some(json) =>
            match afterJson
            case None => Some(json)
            case Some(after) =>
              match after(json)
              case Threw => None
              case Nullish => Some(json)
              case Value(v) => Some(v)
  }

  /** `beforeJson(text) ?? text`. */
  function Renamed(text: string, beforeJson: Option<string -> Option<string>>): (s: string)
    ensures beforeJson.None? ==> s == text
    ensures beforeJson.Some? && beforeJson.value(text).Some? ==> s == beforeJson.value(text).value
    ensures beforeJson.Some? && beforeJson.value(text).None? ==> s == text
  {
    match beforeJson
    case None => text
    case Some(before) => before(text).GetOr(text)
  }

  /** With no transforms, a non-empty text yields exactly what parsing it yields. */
  lemma JFetchWithoutTransformsIsParse<J>(text: string, parse: string -> Option<J>)
    requires text != ""
    ensures JFetch(Some(text), None, parse, None) == parse(text)
  {
  }

  /** A `beforeJson` that returns an empty string short-circuits the pipeline. */
  lemma EmptyRenameGivesNothing<J>(text: string, before: string -> Option<string>,
                                   parse: string -> Option<J>, afterJson: Option<J -> Transformed<J>>)
    requires before(text) == Some("")
    ensures JFetch(Some(text), Some(before), parse, afterJson) == None
  {
  }
}
