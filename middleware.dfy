/** SolnAI's rate limiting and authentication middleware
    (SolnAI-agents/shared/middleware/middleware.py). The rate limiter keeps,
    per client key, the list of request timestamps; a request is admitted
    while fewer than `rate_limit_per_minute` of them fall inside the
    window. Timestamps are integers here (the source uses float seconds),
    and the downstream handler's response is a parameter. */
module Middleware {
  import opened Base
  import opened ErrorHandling

  // ---------------------------------------------------------------------
  // Timestamp lists
  // ---------------------------------------------------------------------

  /** `[ts for ts in timestamps if ts > cutoff]`. */
  function InWindow(timestamps: seq<int>, cutoff: int): (r: seq<int>)
    ensures |r| <= |timestamps|
    ensures forall t :: t in r <==> t in timestamps && t > cutoff
  {
    if timestamps == [] then []
    else (if timestamps[0] > cutoff then [timestamps[0]] else []) + InWindow(timestamps[1..], cutoff)
  }

  /** The number of timestamps of `key` inside the window; 0 for a key
      never seen. */
  function CountIn(counts: map<string, seq<int>>, key: string, cutoff: int): nat
  {
    if key !in counts then 0 else |InWindow(counts[key], cutoff)|
  }

  /** `_cleanup_old_entries` as a function of the map: old timestamps go,
      and so does every key left without any. */
  function Cleaned(counts: map<string, seq<int>>, cutoff: int): map<string, seq<int>>
  {
    map k | k in counts && InWindow(counts[k], cutoff) != [] :: InWindow(counts[k], cutoff)
  }

  /** `_add_request`: the timestamp appended to the key's list, which is
      created when missing. */
  function Added(counts: map<string, seq<int>>, key: string, now: int): map<string, seq<int>>
  {
    counts[key := (if key in counts then counts[key] else []) + [now]]
  }

  lemma {:induction false} InWindowTwice(timestamps: seq<int>, cutoff: int)
    ensures InWindow(InWindow(timestamps, cutoff), cutoff) == InWindow(timestamps, cutoff)
  {
    if timestamps != [] {
      InWindowTwice(timestamps[1..], cutoff);
      var head := if timestamps[0] > cutoff then [timestamps[0]] else [];
      InWindowAppend(head, InWindow(timestamps[1..], cutoff), cutoff);
      if timestamps[0] > cutoff {
        assert InWindow(head, cutoff) == head by {
          assert head[1..] == [];
        }
      }
    }
  }

  lemma {:induction false} InWindowAppend(a: seq<int>, b: seq<int>, cutoff: int)
    ensures InWindow(a + b, cutoff) == InWindow(a, cutoff) + InWindow(b, cutoff)
  {
    if a == [] {
      assert a + b == b;
    } else {
      assert (a + b)[0] == a[0] && (a + b)[1..] == a[1..] + b;
      InWindowAppend(a[1..], b, cutoff);
    }
  }

  /** Cleaning up never changes a key's count in the window it cleans
      for, and leaves only non-empty lists of timestamps inside it. */
  lemma {:induction false} CleanedKeepsCounts(counts: map<string, seq<int>>, key: string, cutoff: int)
    ensures CountIn(Cleaned(counts, cutoff), key, cutoff) == CountIn(counts, key, cutoff)
    ensures forall k :: k in Cleaned(counts, cutoff) ==>
      Cleaned(counts, cutoff)[k] != [] && forall t :: t in Cleaned(counts, cutoff)[k] ==> t > cutoff
  {
    if key in counts {
      InWindowTwice(counts[key], cutoff);
    }
  }

  /** Recording a request at `now` adds one to the key's count when `now`
      is inside the window (a positive window) and leaves other keys'
      counts alone. */
  lemma {:induction false} AddedCount(counts: map<string, seq<int>>, key: string, other: string, now: int, window: int)
    ensures CountIn(Added(counts, key, now), key, now - window)
         == CountIn(counts, key, now - window) + (if window > 0 then 1 else 0)
    ensures other != key ==>
      CountIn(Added(counts, key, now), other, now - window) == CountIn(counts, other, now - window)
  {
    var prev := if key in counts then counts[key] else [];
    InWindowAppend(prev, [now], now - window);
    assert InWindow([now], now - window) == (if now > now - window then [now] else []) by {
      assert [now][1..] == [];
    }
  }

  /** The admission invariant: a key admitted below the limit is at most
      at the limit afterwards. */
  lemma {:induction false} AdmittedWithinLimit(counts: map<string, seq<int>>, key: string, now: int, window: int, limit: int)
    requires CountIn(counts, key, now - window) < limit
    ensures CountIn(Added(counts, key, now), key, now - window) <= limit
  {
    AddedCount(counts, key, key, now, window);
  }

  // ---------------------------------------------------------------------
  // RateLimitingMiddleware
  // ---------------------------------------------------------------------

  /** An HTTP response: status, body and headers. */
  datatype Response = Response(status: int, content: string, headers: map<string, string>)

  const HeaderLimit := "X-RateLimit-Limit"
  const HeaderRemaining := "X-RateLimit-Remaining"
  const HeaderReset := "X-RateLimit-Reset"
  const LimitedMessage := "Rate limit exceeded. Please try again later."

  const DefaultRateExcludes: seq<string> := ["/health", "/metrics"]

  /** `f"{user_id}:{client_ip}"`, with "anonymous" for a missing X-User-ID
      header and "unknown" for a request without a client. */
  function ClientKey(userId: Option<string>, clientHost: Option<string>): string
  {
    (if userId.Some? then userId.value else "anonymous") + ":" + (if clientHost.Some? then clientHost.value else "unknown")
  }

  /** The 429 response a limited request receives. */
  function LimitedResponse(limit: int, reset: int): (r: Response)
    ensures r.status == 429 && r.headers.Keys == {HeaderLimit, HeaderReset}
  {
    Response(429, LimitedMessage, map[HeaderLimit := IntToString(limit), HeaderReset := IntToString(reset)])
  }

  /** The downstream response with the three rate-limit headers set. */
  function WithRateHeaders(resp: Response, limit: int, remaining: int, reset: int): (r: Response)
    ensures r.status == resp.status && r.content == resp.content
    ensures r.headers.Keys == resp.headers.Keys + {HeaderLimit, HeaderRemaining, HeaderReset}
  {
    resp.(headers := resp.headers[HeaderLimit := IntToString(limit)][HeaderRemaining := IntToString(remaining)]
                                  [HeaderReset := IntToString(reset)])
  }

  class RateLimiter {
    const limit: int
    const window: int
    const excludePaths: seq<string>
    var requestCounts: map<string, seq<int>>

    /** `exclude_paths or [...]`: None and [] both give the defaults. */
    constructor(rateLimitPerMinute: int, windowSeconds: int, paths: seq<string>)
      ensures limit == rateLimitPerMinute && window == windowSeconds
      ensures excludePaths == if paths == [] then DefaultRateExcludes else paths
      ensures requestCounts == map[]
    {
      limit := rateLimitPerMinute;
      window := windowSeconds;
      excludePaths := if paths == [] then DefaultRateExcludes else paths;
      requestCounts := map[];
    }

    /** `_get_request_count`: the key's timestamps strictly after
        now - window, 0 for an unknown key. */
    function RequestCount(key: string, now: int): (n: nat)
      reads this
      ensures key !in requestCounts ==> n == 0
      ensures key in requestCounts ==> n <= |requestCounts[key]|
      ensures key in requestCounts ==> n == |InWindow(requestCounts[key], now - window)|
    {
      CountIn(requestCounts, key, now - window)
    }

    /** `_is_rate_limited`. */
    predicate IsRateLimited(key: string, now: int)
      reads this
    {
      RequestCount(key, now) >= limit
    }

    /** `_get_reset_time`. */
    function ResetTime(now: int): int
      reads this
    {
      now + window
    }

    /** `_cleanup_old_entries`: each key's list is filtered, and removed
        when nothing is left. */
    method CleanupOldEntries(now: int)
      modifies this
      ensures requestCounts == Cleaned(old(requestCounts), now - window)
    {
      var cutoff := now - window;
      ghost var start := requestCounts;
      var keys := requestCounts.Keys;
      while keys != {}
        invariant keys <= start.Keys
        invariant requestCounts == Progress(start, keys, cutoff)
        decreases |keys|
      {
        var k :| k in keys;
        ProgressStep(start, keys, k, cutoff);
        var kept := InWindow(requestCounts[k], cutoff);
        requestCounts := requestCounts[k := kept];
        if kept == [] {
          requestCounts := requestCounts - {k};
        }
        keys := keys - {k};
      }
      ProgressDone(start, cutoff);
    }

    /** `_add_request`. */
    method AddRequest(key: string, now: int)
      modifies this
      ensures requestCounts == Added(old(requestCounts), key, now)
    {
      if key !in requestCounts {
        requestCounts := requestCounts[key := []];
      }
      requestCounts := requestCounts[key := requestCounts[key] + [now]];
    }

    /** `dispatch`: excluded paths go straight through; otherwise old
        entries are cleaned up, a key at its limit gets 429 without being
        recorded, and an admitted request is recorded before the
        downstream response gets the rate-limit headers. */
    method Dispatch(path: string, userId: Option<string>, clientHost: Option<string>, now: int, downstream: Response)
      returns (resp: Response)
      modifies this
      ensures path in excludePaths ==> resp == downstream && requestCounts == old(requestCounts)
      ensures path !in excludePaths ==>
        var key := ClientKey(userId, clientHost);
        var cleaned := Cleaned(old(requestCounts), now - window);
        if CountIn(cleaned, key, now - window) >= limit then
          resp == LimitedResponse(limit, now + window) && requestCounts == cleaned
        else
          && requestCounts == Added(cleaned, key, now)
          && resp == WithRateHeaders(downstream, limit, Max(0, limit - CountIn(requestCounts, key, now - window)), now + window)
    {
      if path in excludePaths {
        return downstream;
      }
      var key := ClientKey(userId, clientHost);
      CleanupOldEntries(now);
      if IsRateLimited(key, now) {
        return LimitedResponse(limit, ResetTime(now));
      }
      AddRequest(key, now);
      var remaining := limit - RequestCount(key, now);
      resp := WithRateHeaders(downstream, limit, Max(0, remaining), ResetTime(now));
    }
  }

  /** The map part way through the cleanup loop: keys still to visit keep
      their list, visited ones are filtered or gone. */
  function Progress(start: map<string, seq<int>>, pending: set<string>, cutoff: int): map<string, seq<int>>
  {
    map k | k in start && (k in pending || InWindow(start[k], cutoff) != []) ::
      if k in pending then start[k] else InWindow(start[k], cutoff)
  }

  /** Visiting one pending key filters its list and drops it when empty. */
  lemma {:induction false} ProgressStep(start: map<string, seq<int>>, pending: set<string>, k: string, cutoff: int)
    requires k in pending && pending <= start.Keys
    ensures var before := Progress(start, pending, cutoff);
      var kept := InWindow(before[k], cutoff);
      Progress(start, pending - {k}, cutoff)
        == if kept == [] then before[k := kept] - {k} else before[k := kept]
  {
  }

  /** With no key pending, the loop has computed Cleaned. */
  lemma {:induction false} ProgressDone(start: map<string, seq<int>>, cutoff: int)
    ensures Progress(start, {}, cutoff) == Cleaned(start, cutoff)
  {
  }

  /** After an admitted request, the key's count is within the limit and
      the reported remaining is the limit minus that count, never
      negative. */
  lemma {:induction false} DispatchAdmits(counts: map<string, seq<int>>, key: string, now: int, window: int, limit: int)
    requires CountIn(Cleaned(counts, now - window), key, now - window) < limit
    ensures var after := Added(Cleaned(counts, now - window), key, now);
      && CountIn(after, key, now - window) <= limit
      && Max(0, limit - CountIn(after, key, now - window)) == limit - CountIn(after, key, now - window)
  {
    AdmittedWithinLimit(Cleaned(counts, now - window), key, now, window, limit);
  }

  /** Whether a request is limited depends only on the stored timestamps
      inside the window: cleaning up first does not change the verdict. */
  lemma {:induction false} LimitedIffCountAtLimit(counts: map<string, seq<int>>, key: string, now: int, window: int, limit: int)
    ensures CountIn(Cleaned(counts, now - window), key, now - window) >= limit
        <==> CountIn(counts, key, now - window) >= limit
  {
    CleanedKeepsCounts(counts, key, now - window);
  }

  // ---------------------------------------------------------------------
  // AuthenticationMiddleware
  // ---------------------------------------------------------------------

  const DefaultAuthExcludes: seq<string> := ["/health", "/metrics", "/"]

  /** The middleware's settings and the configured API keys. */
  datatype AuthSettings = AuthSettings(excludePaths: seq<string>, headerName: string, scheme: string, apiKeys: seq<string>)

  /** The constructor: `exclude_paths or [...]`. */
  function NewAuthSettings(paths: seq<string>, headerName: string, scheme: string, apiKeys: seq<string>): (s: AuthSettings)
    ensures s.excludePaths == (if paths == [] then DefaultAuthExcludes else paths)
    ensures s.headerName == headerName && s.scheme == scheme && s.apiKeys == apiKeys
  {
    AuthSettings(if paths == [] then DefaultAuthExcludes else paths, headerName, scheme, apiKeys)
  }

  /** `auth_header.replace(f"{scheme} ", "")`: every occurrence removed. */
  function Token(header: string, scheme: string): string
  {
    ReplaceAll(header, scheme + " ", "")
  }

  /** `_verify_token`'s error message, or None for an accepted token. */
  function VerifyToken(token: string, apiKeys: seq<string>): (r: Option<string>)
    ensures r.None? <==> token != "" && token in apiKeys
    ensures token == "" ==> r == Some("Authentication token is missing")
    ensures token != "" && token !in apiKeys ==> r == Some("Invalid authentication token")
  {
    if token == "" then Some("Authentication token is missing")
    else if token !in apiKeys then Some("Invalid authentication token")
    else None
  }

  /** `dispatch`: Ok to forward the request, or the AuthenticationError it
      raises. The header value is None when the header is absent. */
  function Authenticate(s: AuthSettings, path: string, header: Option<string>): (r: Result<(), AgentError>)
    ensures r.Err? ==> r.error.code == KindCode(Authentication) && r.error.statusCode == 401
  {
    if path in s.excludePaths then Ok(())
    else if header.None? || header.value == "" then
      Err(NewError(Authentication, "Authentication header is missing",
                   Some(map["header_name" := PyJson.JStr(s.headerName)])))
    else if !StartsWith(header.value, s.scheme + " ") then
      Err(NewError(Authentication, "Authentication header must start with '" + s.scheme + "'",
                   Some(map["header_name" := PyJson.JStr(s.headerName), "scheme" := PyJson.JStr(s.scheme)])))
    else
      var verdict := VerifyToken(Token(header.value, s.scheme), s.apiKeys);
      if verdict.Some? then
        Err(NewError(Authentication, "Invalid authentication token: " + verdict.value,
                     Some(map["token" := PyJson.JStr("***")])))
      else Ok(())
  }

  /** A request is forwarded exactly when its path is excluded, or it
      carries a non-empty header with the scheme prefix whose token is a
      non-empty allowed key. */
  lemma {:induction false} AuthenticateForwards(s: AuthSettings, path: string, header: Option<string>)
    ensures Authenticate(s, path, header).Ok? <==>
      || path in s.excludePaths
      || (&& header.Some? && header.value != ""
          && StartsWith(header.value, s.scheme + " ")
          && Token(header.value, s.scheme) != ""
          && Token(header.value, s.scheme) in s.apiKeys)
  {
  }

  /** A header that is the scheme, a space and a token in which the
      prefix does not occur again yields exactly that token. */
  lemma {:induction false} TokenAfterScheme(scheme: string, token: string)
    requires !Contains(token, scheme + " ")
    ensures Token(scheme + " " + token, scheme) == token
  {
    var p := scheme + " ";
    var header := p + token;
    assert header == p + token;
    assert OccursAt(header, p, 0) by {
      assert header[0..|p|] == p;
    }
    var f := Find(header, p);
    assert f == Some(0);
    assert header[|p|..] == token;
    assert header[..0] == "";
  }
}
