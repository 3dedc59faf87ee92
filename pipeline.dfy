/** What one request does as it passes through `ServeHTTP`: the request and the
    upstream answer as the balancer sees them, its possible outcomes, the stages
    that answer without a backend, and the relation between the state a request
    meets and the state it leaves. */
module Pipeline {
  import opened Basics
  import opened Text
  import opened Backends
  import opened Security
  import opened Cache
  /** `getClientIP`: the first comma-separated field of `X-Forwarded-For` (not
      trimmed), else `X-Real-IP`, else the remote address up to its first colon. */
  function ClientIP(forwardedFor: string, realIP: string, remoteAddr: string): (ip: string)
    ensures forwardedFor != "" ==>
      ip <= forwardedFor && ',' !in ip && (|ip| < |forwardedFor| ==> forwardedFor[|ip|] == ',')
    ensures forwardedFor == "" && realIP != "" ==> ip == realIP
    ensures forwardedFor == "" && realIP == "" ==>
      ip <= remoteAddr && ':' !in ip && (|ip| < |remoteAddr| ==> remoteAddr[|ip|] == ':')
  {
    if forwardedFor != "" then FirstField(forwardedFor, ',')
    else if realIP != "" then realIP
    else FirstField(remoteAddr, ':')
  }

  // ---------------------------------------------------------------- the request pipeline

  /** What `ServeHTTP` reads of a request: method, URL (as `URL.String()` gives
      it) and path, the three addressing headers and the two security headers. */
  datatype Request = Request(httpMethod: string, url: string, path: string,
                             forwardedFor: string, realIP: string, remoteAddr: string,
                             signature: string, challenge: string)

  /** What the proxy left in the response recorder: the status (200 unless the
      proxy wrote another), the bytes written and the response headers. */
  datatype Upstream = Upstream(status: int, body: seq<bv8>, headers: map<string, seq<string>>)

  /** How `ServeHTTP` answered. */
  datatype Outcome =
    | Forbidden
    | TooManyRequests
    | BadSignature
    | JsChallenge
    | CacheHit(data: seq<bv8>, headers: Headers)
    | Unavailable
    | Proxied(backend: Backend, status: int)

  function StatusOf(o: Outcome): int {
    match o
    case Forbidden => 403
    case TooManyRequests => 429
    case BadSignature => 401
    case JsChallenge => 200
    case CacheHit(_, _) => 200
    case Unavailable => 503
    case Proxied(_, status) => status
  }

  /** Whether the request is recorded as an error in the metrics. */
  predicate CountsAsError(o: Outcome) {
    match o
    case JsChallenge => false
    case CacheHit(_, _) => false
    case Proxied(_, status) => status >= 500
    case _ => true
  }

  /** The balancer's own answers count as errors exactly when they are 4xx or 5xx;
      a proxied answer only when it is 5xx. */
  lemma ErrorsAreFailures(o: Outcome)
    ensures !o.Proxied? ==> (CountsAsError(o) <==> StatusOf(o) >= 400)
    ensures o.Proxied? ==> (CountsAsError(o) <==> StatusOf(o) >= 500)
  {
  }

  function CacheKey(req: Request): string {
    req.httpMethod + ":" + req.url
  }

  /** A cached answer is looked for only for GET outside `/api/`. */
  predicate CacheReadable(req: Request) {
    req.httpMethod == "GET" && !Contains(req.path, "/api/")
  }

  /** A proxied answer is stored only for a GET with status 200 and a body, outside
      `/api/` and `/admin`. */
  predicate CacheWritable(req: Request, up: Upstream) {
    req.httpMethod == "GET" && up.status == 200 && |up.body| > 0
    && !Contains(req.path, "/api/") && !Contains(req.path, "/admin")
  }

  /** The first value of every response header that has one. */
  function FirstValues(h: map<string, seq<string>>): (r: Headers)
    ensures forall k :: k in r <==> k in h && |h[k]| > 0
    ensures forall k :: k in r ==> r[k] == h[k][0]
  {
    map k | k in h && |h[k]| > 0 :: h[k][0]
  }

  /** Whatever `ServeHTTP` stores, an identical request answers from the cache
      until the entry's five minutes are up, with the same bytes and headers. */
  lemma StoredIsServed(m: Store, req: Request, up: Upstream, now: int, later: int)
    requires CacheWritable(req, up)
    requires now <= later < now + DefaultTTL
    ensures CacheReadable(req)
    ensures Lookup(Put(m, CacheKey(req), up.body, FirstValues(up.headers), DefaultTTL, now), CacheKey(req), later)
      == Some((up.body, FirstValues(up.headers)))
  {
    PutThenLookup(m, CacheKey(req), up.body, FirstValues(up.headers), DefaultTTL, now, later);
  }

  /** The stages after the security checks that answer without a backend: a bad
      HMAC signature, a JavaScript challenge, a cache hit. */
  function Front(req: Request, signatureValid: bool, cached: Option<(seq<bv8>, Headers)>): (r: Option<Outcome>)
    ensures r == Some(BadSignature) <==> req.signature != "" && !signatureValid
    ensures r == Some(JsChallenge) <==> (req.signature == "" || signatureValid) && req.challenge == "request"
    ensures r.Some? && r.value.CacheHit? <==>
      (req.signature == "" || signatureValid) && req.challenge != "request" && CacheReadable(req) && cached.Some?
    ensures r.Some? ==> r.value in {BadSignature, JsChallenge} || r.value.CacheHit?
  {
    if req.signature != "" && !signatureValid then Some(BadSignature)
    else if req.challenge == "request" then Some(JsChallenge)
    else if CacheReadable(req) && cached.Some? then Some(CacheHit(cached.value.0, cached.value.1))
    else None
  }

  // ---------------------------------------------------------------- what a request does

  /** The request count and the breaker of the backend that answered, read in
      the state the request met (nothing for the other outcomes). */
  function Prior(b: Backend?): (int, Breaker)
    reads b
  {
    if b == null then (0, Breaker(Closed, 0, 0, 0)) else (b.totalRequests, b.breaker)
  }

  /** The backend that answered, after its answer: counted, timed, down after a
      5xx, and its breaker moved by the admission and then by the answer. */
  predicate Answered(b: Backend, prior: (int, Breaker), status: int, latency: int, now: int)
    reads b
  {
    b.alive == (status < 500) && b.totalRequests == prior.0 + 1
    && b.responseTime == latency
    && b.breaker == AfterResponse(Admit(prior.1, b.resetTimeout, now).1, status, b.failureThreshold, now)
  }

  /** Backend selection and the proxied answer, from the cache `cache0` and the
      admitted backends `eligible0` the request met: 503 when no backend is
      chosen (always so when none is admitted); otherwise an admitted backend
      answers, and a cacheable answer is stored for five minutes. */
  predicate Forwarded(req: Request, now: int, latency: int, upstream: Upstream, o: Outcome,
                      cache0: Store, eligible0: seq<Backend>, prior: (int, Breaker), store: Store)
    reads if o.Proxied? then {o.backend} else {}
  {
    (o.Unavailable? || o.Proxied?)
    && (eligible0 == [] ==> o == Unavailable)
    && (o.Proxied? ==> o.backend in eligible0 && o.status == upstream.status
                       && Answered(o.backend, prior, upstream.status, latency, now))
    && store == if o.Proxied? && CacheWritable(req, upstream)
                then Put(cache0, CacheKey(req), upstream.body, FirstValues(upstream.headers), DefaultTTL, now)
                else cache0
  }

  /** The stages after the security checks: signature, challenge and cache answer
      without touching the cache; otherwise a backend is chosen, or none. */
  predicate Passed(req: Request, now: int, latency: int, signatureValid: bool, upstream: Upstream, o: Outcome,
                   cache0: Store, eligible0: seq<Backend>, prior: (int, Breaker), store: Store)
    reads if o.Proxied? then {o.backend} else {}
  {
    var f := Front(req, signatureValid, Lookup(cache0, CacheKey(req), now));
    (f.Some? ==> o == f.value && store == cache0)
    && (f.None? ==> Forwarded(req, now, latency, upstream, o, cache0, eligible0, prior, store))
  }

  /** The answer to the security verdict: a ban answers 403 and a throttle 429,
      leaving the cache alone; an admitted request goes on as `Passed` says. */
  predicate Responded(verdict: Screening, req: Request, now: int, latency: int, signatureValid: bool,
                      upstream: Upstream, o: Outcome, cache0: Store, eligible0: seq<Backend>,
                      prior: (int, Breaker), store: Store)
    reads if o.Proxied? then {o.backend} else {}
  {
    (o == Forbidden <==> verdict == Banned)
    && (o == TooManyRequests <==> verdict == Throttled)
    && (verdict != Admitted ==> store == cache0)
    && (verdict == Admitted ==> Passed(req, now, latency, signatureValid, upstream, o, cache0, eligible0, prior, store))
  }

  /** The whole pipeline, from the ban table `bans0`, the request table `table0`,
      the cache and the admitted backends the request met: the security tables
      become what `Screen` says, and the answer is `Responded` to its verdict. */
  predicate Served(req: Request, now: int, latency: int, signatureValid: bool, upstream: Upstream,
                   order: seq<string>, o: Outcome, security: SecurityManager,
                   bans0: map<string, int>, table0: Table, cache0: Store, eligible0: seq<Backend>,
                   prior: (int, Breaker), store: Store)
    reads security, if o.Proxied? then {o.backend} else {}
  {
    (forall k :: k in order ==> k in table0)
    && var sc := Screen(bans0, table0, order, ClientIP(req.forwardedFor, req.realIP, req.remoteAddr), now,
                        security.ddosThreshold, security.dosThreshold, security.banDuration, security.windowSize);
    security.bannedIPs == sc.1 && security.rateLimiters == sc.2
    && Responded(sc.0, req, now, latency, signatureValid, upstream, o, cache0, eligible0, prior, store)
  }

}
