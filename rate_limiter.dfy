/**
 * The dashboard's fixed-window rate limiter. Each request to a dashboard path counts against the
 * key "source:path:window", where the window is the epoch second divided by the window length;
 * a request beyond the limit is refused with status 429 (section 4 of RFC 6585) and a
 * `Retry-After` header giving the window length in seconds (section 10.2.3 of RFC 9110).
 * Counters of windows older than the previous one are dropped whenever the window changes.
 */
module RateLimiting {
  import opened Wrappers
  import opened Numeric
  import opened Strings

  const DASHBOARD_PATH_PREFIX: string := "/api/v1/dashboard"
  const TOO_MANY_REQUESTS: int := 429
  const TOO_MANY_REQUESTS_REASON: string := "Too Many Requests"
  const RATE_LIMIT_MESSAGE: string := "Rate limit exceeded. Please retry later."
  /** What `extractWindowFromKey` answers for a key without a window. */
  const NO_WINDOW: int := -1

  /** The limiter's settings once the constructor has floored both numbers at 1. */
  datatype RateLimitConfig = RateLimitConfig(enabled: bool, maxRequests: int, windowSeconds: int)

  predicate ConfigValid(config: RateLimitConfig)
  {
    config.maxRequests >= 1 && config.windowSeconds >= 1
  }

  /** The constructor: a limit or window below 1 is raised to 1, anything else kept. */
  function NormalizeConfig(enabled: bool, maxRequests: int, windowSeconds: int): (config: RateLimitConfig)
    ensures ConfigValid(config) && config.enabled == enabled
    ensures config.maxRequests == if maxRequests >= 1 then maxRequests else 1
    ensures config.windowSeconds == if windowSeconds >= 1 then windowSeconds else 1
  {
    RateLimitConfig(enabled, Max(1, maxRequests), Max(1, windowSeconds))
  }

  /** The parts of a request the filter reads. */
  datatype HttpRequest = HttpRequest(path: string, forwardedFor: Option<string>, remoteAddr: string)

  /** `shouldNotFilter`: a disabled limiter skips everything; an enabled one only counts dashboard paths. */
  predicate ShouldNotFilter(config: RateLimitConfig, path: string)
  {
    !config.enabled || !StartsWith(path, DASHBOARD_PATH_PREFIX)
  }

  /**
   * Element 0 of Java's `s.split(",")`: the text before the first comma. Java drops trailing
   * empty fields, so a non-empty string of commas only splits into no field at all, and
   * indexing it throws (`None`).
   */
  function FirstSplitField(s: string): (r: Option<string>)
    ensures r.None? <==> |s| > 0 && forall i :: 0 <= i < |s| ==> s[i] == ','
    ensures r.Some? ==> StartsWith(s, r.value) && (|r.value| == |s| || s[|r.value|] == ',')
    ensures r.Some? ==> forall i :: 0 <= i < |r.value| ==> r.value[i] != ','
  {
    if |s| > 0 && forall i :: 0 <= i < |s| ==> s[i] == ',' then None
    else
      var k := IndexOf(s, ',');
      Some(if k < 0 then s else s[..k])
  }

  /**
   * The client address as `buildRateLimitKey` determines it: the remote address when
   * `X-Forwarded-For` is missing or blank, else its first entry trimmed. `None` where the
   * lookup throws: a header made of commas only.
   */
  function SourceAsWritten(request: HttpRequest): Option<string>
  {
    if request.forwardedFor.None? || IsBlank(request.forwardedFor.value) then Some(request.remoteAddr)
    else
      match FirstSplitField(request.forwardedFor.value)
      case None => None
      case Some(first) => Some(Trim(first))
  }

  /** `X-Forwarded-For: ,` makes the key lookup throw instead of counting the request. */
  lemma CommaOnlyForwardedForThrows()
    ensures SourceAsWritten(HttpRequest("/api/v1/dashboard/metrics", Some(","), "10.0.0.7")) == None
  {
    assert !IsBlank(",") by { assert !IsJavaWhitespace(","[0]); }
  }

  /**
   * The client address the limiter counts against: the first entry of `X-Forwarded-For`,
   * trimmed, and the remote address when the header is missing, blank or has no entry.
   */
  function Source(request: HttpRequest): string
  {
    match SourceAsWritten(request)
    case Some(source) => source
    case None => request.remoteAddr
  }

  /**
   * The address counted is the remote address exactly when the header is missing, blank or
   * made of commas only, and the trimmed text before the header's first comma otherwise; it
   * agrees with the code as written wherever that does not throw.
   */
  lemma SourceProperties(request: HttpRequest)
    ensures SourceAsWritten(request).Some? ==> Source(request) == SourceAsWritten(request).value
    ensures request.forwardedFor.None? || IsBlank(request.forwardedFor.value) ==> Source(request) == request.remoteAddr
    ensures request.forwardedFor.Some? && !IsBlank(request.forwardedFor.value) ==>
      var header := request.forwardedFor.value;
      var k := IndexOf(header, ',');
      if k < 0 then Source(request) == Trim(header)
      else if forall i :: 0 <= i < |header| ==> header[i] == ',' then Source(request) == request.remoteAddr
      else Source(request) == Trim(header[..k])
  {
  }

  /** `buildRateLimitKey`: source, path and window joined by colons. */
  function BuildRateLimitKey(source: string, path: string, window: int): string
  {
    source + ":" + path + ":" + LongToString(window)
  }

  /** `extractWindowFromKey`: the number after the last colon, or -1 when there is none or it does not parse as a `long`. */
  function ExtractWindowFromKey(key: string): (window: int)
    ensures window == NO_WINDOW || IsLong(window)
  {
    var lastSeparator := LastIndexOf(key, ':');
    if lastSeparator < 0 || lastSeparator == |key| - 1 then NO_WINDOW
    else
      match ParseLong(key[lastSeparator + 1..])
      case Some(window) => window
      case None => NO_WINDOW
  }

  /** The last colon of `prefix + ":" + tail` is the one before `tail` when `tail` has none. */
  lemma LastSeparatorBeforeTail(prefix: string, tail: string)
    requires forall i :: 0 <= i < |tail| ==> tail[i] != ':'
    ensures LastIndexOf(prefix + ":" + tail, ':') == |prefix|
  {
    var key := prefix + ":" + tail;
    var r := LastIndexOf(key, ':');
    assert key[|prefix|] == ':';
  }

  /** The window can be read back from every key the filter builds. */
  lemma KeyRoundTrip(source: string, path: string, window: int)
    requires IsLong(window)
    ensures ExtractWindowFromKey(BuildRateLimitKey(source, path, window)) == window
  {
    var text := LongToString(window);
    var key := BuildRateLimitKey(source, path, window);
    assert forall i :: 0 <= i < |text| ==> text[i] != ':' by {
      forall i | 0 <= i < |text| ensures text[i] != ':' {
        assert IsDigit(text[i]) || text[i] == '-';
      }
    }
    assert key == (source + ":" + path) + ":" + text;
    LastSeparatorBeforeTail(source + ":" + path, text);
    assert key[|source + ":" + path| + 1..] == text;
    ParseLongRoundTrip(window);
  }

  /** A key without a colon, with nothing after its last colon, or with a non-number there has no window. */
  lemma ExtractWindowFailures(key: string)
    ensures (forall i :: 0 <= i < |key| ==> key[i] != ':') ==> ExtractWindowFromKey(key) == NO_WINDOW
    ensures |key| > 0 && key[|key| - 1] == ':' ==> ExtractWindowFromKey(key) == NO_WINDOW
    ensures var k := LastIndexOf(key, ':');
      0 <= k && ParseLong(key[k + 1..]).None? ==> ExtractWindowFromKey(key) == NO_WINDOW
  {
    NoColonNoSeparator(key);
    TrailingColonIsLastSeparator(key);
  }

  /** A key without a colon has no separator, so no window. */
  lemma NoColonNoSeparator(key: string)
    ensures (forall i :: 0 <= i < |key| ==> key[i] != ':') ==> LastIndexOf(key, ':') == -1
  {
  }

  /** The last colon of a key ending in a colon is its last character. */
  lemma TrailingColonIsLastSeparator(key: string)
    ensures |key| > 0 && key[|key| - 1] == ':' ==> LastIndexOf(key, ':') == |key| - 1
  {
  }

  /** The counters and the window of the last cleanup. */
  datatype LimiterState = LimiterState(requestCounters: map<string, int>, lastCleanupWindow: int)

  /** A new filter: no counters, and no cleanup yet. */
  const INITIAL_LIMITER: LimiterState := LimiterState(map[], -1)

  /** The window an epoch second falls in (Java's `long` division truncates). */
  function CurrentWindow(epochSecond: int, windowSeconds: int): int
    requires windowSeconds >= 1
  {
    DivTrunc(epochSecond, windowSeconds)
  }

  /** The count under `key`; a key without a counter has counted nothing. */
  function Count(counters: map<string, int>, key: string): int
  {
    if key in counters then counters[key] else 0
  }

  /** The oldest window whose counters survive a cleanup. */
  function OldestAcceptedWindow(currentWindow: int): int
  {
    Max(0, currentWindow - 1)
  }

  /** `cleanupExpiredWindows`: once per window, drop every counter whose window is older than the previous one. */
  function Cleanup(st: LimiterState, currentWindow: int): LimiterState
  {
    if st.lastCleanupWindow == currentWindow then st
    else
      var oldest := OldestAcceptedWindow(currentWindow);
      LimiterState(
        map key | key in st.requestCounters && ExtractWindowFromKey(key) >= oldest :: st.requestCounters[key],
        currentWindow)
  }

  /**
   * A cleanup records the current window. In a new window it keeps exactly the counters of
   * the previous window or later, unchanged; in the window already cleaned it changes nothing.
   */
  lemma CleanupProperties(st: LimiterState, currentWindow: int)
    ensures var next := Cleanup(st, currentWindow);
      && next.lastCleanupWindow == currentWindow
      && (st.lastCleanupWindow == currentWindow ==> next == st)
      && (st.lastCleanupWindow != currentWindow ==>
            forall key :: key in next.requestCounters <==>
              key in st.requestCounters && ExtractWindowFromKey(key) >= OldestAcceptedWindow(currentWindow))
      && (forall key :: key in next.requestCounters ==> key in st.requestCounters && next.requestCounters[key] == st.requestCounters[key])
  {
  }

  /** What the filter does with a request. */
  datatype FilterOutcome =
    | Skipped
    | Forwarded
    | Rejected(status: int, reason: string, message: string, path: string, retryAfter: string)
    /** The key could not be built: the request fails with the exception and is not counted. */
    | KeyLookupFailed

  /** `writeRateLimitResponse` */
  function RateLimitResponse(config: RateLimitConfig, path: string): FilterOutcome
  {
    Rejected(TOO_MANY_REQUESTS, TOO_MANY_REQUESTS_REASON, RATE_LIMIT_MESSAGE, path, LongToString(config.windowSeconds))
  }

  /**
   * One request at `epochSecond`: skipped unless it is counted; otherwise its counter is
   * incremented (as a 32-bit `AtomicInteger`), old windows are cleaned up, and the request is
   * refused when the new count exceeds the limit.
   */
  function Filter(st: LimiterState, config: RateLimitConfig, request: HttpRequest, epochSecond: int): (LimiterState, FilterOutcome)
    requires ConfigValid(config)
  {
    if ShouldNotFilter(config, request.path) then (st, Skipped)
    else
      var window := CurrentWindow(epochSecond, config.windowSeconds);
      CountRequest(st, config, request.path, BuildRateLimitKey(Source(request), request.path, window), window)
  }

  /**
   * `doFilterInternal` as written: the key is built from `SourceAsWritten`, so a counted request
   * whose `X-Forwarded-For` is made of commas only fails before anything is counted.
   */
  function FilterAsWritten(st: LimiterState, config: RateLimitConfig, request: HttpRequest, epochSecond: int): (LimiterState, FilterOutcome)
    requires ConfigValid(config)
  {
    if ShouldNotFilter(config, request.path) then (st, Skipped)
    else
      match SourceAsWritten(request)
      case None => (st, KeyLookupFailed)
      case Some(source) =>
        var window := CurrentWindow(epochSecond, config.windowSeconds);
        CountRequest(st, config, request.path, BuildRateLimitKey(source, request.path, window), window)
  }

  /** A header of commas only: the case where the code as written throws. */
  predicate CommaOnlyHeader(request: HttpRequest)
  {
    request.forwardedFor.Some? && |request.forwardedFor.value| > 0
    && forall i :: 0 <= i < |request.forwardedFor.value| ==> request.forwardedFor.value[i] == ','
  }

  /**
   * The filter as written fails, changing nothing, exactly on counted requests whose header is
   * made of commas only, and otherwise does what `Filter` does.
   */
  lemma FilterAsWrittenAgrees(st: LimiterState, config: RateLimitConfig, request: HttpRequest, epochSecond: int)
    requires ConfigValid(config)
    ensures var (next, outcome) := FilterAsWritten(st, config, request, epochSecond);
      && (outcome == KeyLookupFailed <==> !ShouldNotFilter(config, request.path) && CommaOnlyHeader(request))
      && (outcome == KeyLookupFailed ==> next == st)
      && (outcome != KeyLookupFailed ==> (next, outcome) == Filter(st, config, request, epochSecond))
  {
    if CommaOnlyHeader(request) {
      assert !IsJavaWhitespace(request.forwardedFor.value[0]);
    }
    SourceProperties(request);
  }

  /** `doFilterInternal` once the key is built: count the request, clean up, refuse it beyond the limit. */
  function CountRequest(st: LimiterState, config: RateLimitConfig, path: string, key: string, window: int): (LimiterState, FilterOutcome)
  {
    var count := WrapInt(Count(st.requestCounters, key) + 1);
    var next := Cleanup(Counted(st, key), window);
    if count > config.maxRequests then (next, RateLimitResponse(config, path))
    else (next, Forwarded)
  }

  /** The state with the key's counter one higher, wrapping as a Java `int` does. */
  function Counted(st: LimiterState, key: string): LimiterState
  {
    st.(requestCounters := st.requestCounters[key := WrapInt(Count(st.requestCounters, key) + 1)])
  }

  /**
   * A skipped request changes nothing. A counted one is refused, with status 429 and the window
   * length as `Retry-After`, exactly when its key's count, one higher than before, exceeds the
   * limit; it is passed on otherwise. In a window from 1970 on, the key keeps its new count.
   */
  lemma FilterProperties(st: LimiterState, config: RateLimitConfig, request: HttpRequest, epochSecond: int)
    requires ConfigValid(config) && IsLong(epochSecond)
    ensures var (next, outcome) := Filter(st, config, request, epochSecond);
      && (outcome.Skipped? <==> ShouldNotFilter(config, request.path))
      && (outcome.Skipped? ==> next == st)
      && (!outcome.Skipped? ==>
            var window := CurrentWindow(epochSecond, config.windowSeconds);
            var key := BuildRateLimitKey(Source(request), request.path, window);
            var count := WrapInt(Count(st.requestCounters, key) + 1);
            && next.lastCleanupWindow == window
            && (outcome.Rejected? <==> count > config.maxRequests)
            && (outcome.Rejected? ==> outcome == Rejected(429, "Too Many Requests", RATE_LIMIT_MESSAGE, request.path, LongToString(config.windowSeconds)))
            && (window >= 0 ==> Count(next.requestCounters, key) == count))
  {
    if !ShouldNotFilter(config, request.path) {
      var window := CurrentWindow(epochSecond, config.windowSeconds);
      WindowIsLong(epochSecond, config.windowSeconds);
      CountRequestProperties(st, config, Source(request), request.path, window);
    }
  }

  /**
   * A counted request is never skipped; it is refused, with status 429 and the window length
   * as `Retry-After`, exactly when the key's count, one higher than before, exceeds the limit,
   * and in a window from 1970 on the key keeps that count through the cleanup.
   */
  lemma CountRequestProperties(st: LimiterState, config: RateLimitConfig, source: string, path: string, window: int)
    ensures var key := BuildRateLimitKey(source, path, window);
      var count := WrapInt(Count(st.requestCounters, key) + 1);
      var (next, outcome) := CountRequest(st, config, path, key, window);
      && !outcome.Skipped?
      && next.lastCleanupWindow == window
      && (outcome.Rejected? <==> count > config.maxRequests)
      && (outcome.Rejected? ==> outcome == Rejected(429, "Too Many Requests", RATE_LIMIT_MESSAGE, path, LongToString(config.windowSeconds)))
      && (0 <= window && IsLong(window) ==> Count(next.requestCounters, key) == count)
  {
    var key := BuildRateLimitKey(source, path, window);
    CountRequestOutcome(st, config, path, key, window);
    CountedKeyKept(st, config, path, key, window);
    if 0 <= window && IsLong(window) {
      KeyRoundTrip(source, path, window);
    }
  }

  /** The outcome part of `CountRequestProperties`. */
  lemma CountRequestOutcome(st: LimiterState, config: RateLimitConfig, path: string, key: string, window: int)
    ensures var count := WrapInt(Count(st.requestCounters, key) + 1);
      var outcome := CountRequest(st, config, path, key, window).1;
      && !outcome.Skipped?
      && (outcome.Rejected? <==> count > config.maxRequests)
      && (outcome.Rejected? ==> outcome == Rejected(429, "Too Many Requests", RATE_LIMIT_MESSAGE, path, LongToString(config.windowSeconds)))
  {
  }

  /** Counting a request records the window and keeps the key's new count when the key's window is still accepted. */
  lemma CountedKeyKept(st: LimiterState, config: RateLimitConfig, path: string, key: string, window: int)
    ensures var next := CountRequest(st, config, path, key, window).0;
      && next.lastCleanupWindow == window
      && (ExtractWindowFromKey(key) >= OldestAcceptedWindow(window) ==>
            Count(next.requestCounters, key) == WrapInt(Count(st.requestCounters, key) + 1))
  {
    CleanupKeepsAccepted(Counted(st, key), key, window);
  }

  /** A cleanup records the window and keeps the counter of a key whose window is still accepted. */
  lemma CleanupKeepsAccepted(st: LimiterState, key: string, window: int)
    requires key in st.requestCounters
    ensures Cleanup(st, window).lastCleanupWindow == window
    ensures ExtractWindowFromKey(key) >= OldestAcceptedWindow(window) ==>
      Count(Cleanup(st, window).requestCounters, key) == st.requestCounters[key]
  {
  }

  /** The window of a `long` epoch second is a `long`. */
  lemma WindowIsLong(epochSecond: int, windowSeconds: int)
    requires IsLong(epochSecond) && windowSeconds >= 1
    ensures IsLong(CurrentWindow(epochSecond, windowSeconds))
  {
    if epochSecond >= 0 {
      assert epochSecond / windowSeconds <= epochSecond;
    } else {
      assert (-epochSecond) / windowSeconds <= -epochSecond;
    }
  }

  /** A series of requests from one client to one path, in order. */
  function Run(st: LimiterState, config: RateLimitConfig, request: HttpRequest, times: seq<int>): (LimiterState, seq<FilterOutcome>)
    requires ConfigValid(config)
  {
    if |times| == 0 then (st, [])
    else
      var (mid, outcomes) := Run(st, config, request, times[..|times| - 1]);
      var (next, outcome) := Filter(mid, config, request, times[|times| - 1]);
      (next, outcomes + [outcome])
  }

  /**
   * Within one window (from 1970 on), successive requests from one client to one path are
   * counted one by one: the i-th is refused exactly when the count before the series plus
   * i + 1 exceeds the limit. From a fresh counter, the first `maxRequests` pass and the rest are
   * refused, until the window changes.
   */
  lemma {:induction false} SameWindowRun(st: LimiterState, config: RateLimitConfig, request: HttpRequest, times: seq<int>, window: int)
    requires ConfigValid(config) && !ShouldNotFilter(config, request.path) && window >= 0
    requires forall i :: 0 <= i < |times| ==> IsLong(times[i]) && CurrentWindow(times[i], config.windowSeconds) == window
    requires var before := Count(st.requestCounters, BuildRateLimitKey(Source(request), request.path, window));
      0 <= before && before + |times| <= INT_MAX
    ensures var key := BuildRateLimitKey(Source(request), request.path, window);
      var before := Count(st.requestCounters, key);
      var (next, outcomes) := Run(st, config, request, times);
      && |outcomes| == |times|
      && (|times| > 0 ==> Count(next.requestCounters, key) == before + |times|)
      && (forall i :: 0 <= i < |times| ==>
            outcomes[i] == if before + i + 1 > config.maxRequests then RateLimitResponse(config, request.path) else Forwarded)
  {
    if |times| > 0 {
      var key := BuildRateLimitKey(Source(request), request.path, window);
      var before := Count(st.requestCounters, key);
      var init := times[..|times| - 1];
      SameWindowRun(st, config, request, init, window);
      var (mid, outcomes) := Run(st, config, request, init);
      var t := times[|times| - 1];
      FilterProperties(mid, config, request, t);
      if |init| == 0 {
        assert mid == st;
      }
      assert Count(mid.requestCounters, key) == before + |init|;
    }
  }

  /** The filter. The counters are a map it reassigns; the settings are fixed at construction. */
  class RateLimitingFilter {
    const config: RateLimitConfig
    var requestCounters: map<string, int>
    var lastCleanupWindow: int

    function State(): LimiterState
      reads this
    {
      LimiterState(requestCounters, lastCleanupWindow)
    }

    constructor (enabled: bool, maxRequests: int, windowSeconds: int)
      ensures config == NormalizeConfig(enabled, maxRequests, windowSeconds)
      ensures State() == INITIAL_LIMITER
    {
      config := NormalizeConfig(enabled, maxRequests, windowSeconds);
      requestCounters := map[];
      lastCleanupWindow := -1;
    }

    /** `shouldNotFilter` followed, for a counted path, by `doFilterInternal` at `epochSecond`. */
    method DoFilter(request: HttpRequest, epochSecond: int) returns (outcome: FilterOutcome)
      requires ConfigValid(config)
      modifies this
      ensures (State(), outcome) == Filter(old(State()), config, request, epochSecond)
    {
      if ShouldNotFilter(config, request.path) {
        return Skipped;
      }
      ghost var start := State();
      var currentWindow := DivTrunc(epochSecond, config.windowSeconds);
      var key := BuildRateLimitKey(Source(request), request.path, currentWindow);
      var requestCount := WrapInt(Count(requestCounters, key) + 1);
      requestCounters := requestCounters[key := requestCount];
      CleanupExpiredWindows(currentWindow);
      assert State() == Cleanup(start.(requestCounters := start.requestCounters[key := requestCount]), currentWindow);
      if requestCount > config.maxRequests {
        outcome := RateLimitResponse(config, request.path);
      } else {
        outcome := Forwarded;
      }
    }

    /** `cleanupExpiredWindows` */
    method CleanupExpiredWindows(currentWindow: int)
      modifies this
      ensures State() == Cleanup(old(State()), currentWindow)
    {
      var previousWindow := lastCleanupWindow;
      if previousWindow == currentWindow {
        return;
      }
      lastCleanupWindow := currentWindow;
      var oldestAcceptedWindow := Max(0, currentWindow - 1);
      requestCounters := map key | key in requestCounters && ExtractWindowFromKey(key) >= oldestAcceptedWindow :: requestCounters[key];
    }
  }
}
