// The shared Siscomex session manager: token state, the preventive hourly
// request limit, the token bucket, PUCX-ER1001 pauses and authentication.
// The wall clock is a parameter (`now`) and every method returns the clock
// after its sleeps; HTTP replies are parameters, `None` for a transport error.
module Session {
  import opened Wrappers
  import C = Constants
  import opened SessionRules
  import opened SessionGate
  import RateLimiter

  /** Outcome of one `request`: the server's reply, or an exception. */
  datatype Outcome = Reply(resp: Response) | Raised

  class SessionManager {
    var setToken: Option<string>
    var csrfToken: Option<string>
    var expiry: Option<int>
    var clientId: Option<string>
    var clientSecret: Option<string>
    var lastAuth: Option<int>
    var windowStart: int
    var requestsInWindow: int
    var safeLimit: int
    var blockedUntil: Option<int>
    var limiter: RateLimiter.TokenBucket?
    var cacheFile: CacheFile
    /** Instants at which HTTP requests were sent, oldest first. */
    ghost var sends: seq<int>

    ghost predicate Valid()
      reads this, limiter
    {
      0 <= requestsInWindow && (safeLimit > 0 ==> requestsInWindow <= safeLimit)
      && (limiter != null ==> limiter.Valid() && limiter.capacity >= 1.0)
    }

    function Tokens(): TokenFields
      reads this
    {
      TokenFields(setToken, csrfToken, expiry)
    }

    function Holding(): Held
      reads this
    {
      Held(Tokens(), lastAuth)
    }

    function CurrentWindow(): Window
      reads this
    {
      Window(windowStart, requestsInWindow)
    }

    /** Builds the manager: empty token, current window, limits from the environment, then the cache. */
    constructor (now: int, safeEnv: EnvInt, hourEnv: EnvInt, burstEnv: EnvInt, cache: CacheFile)
      ensures Valid() && sends == []
      ensures windowStart == WindowStart(now) && requestsInWindow == 0 && blockedUntil == None
      ensures safeLimit == SafeRequestLimit(safeEnv)
      ensures clientId == None && clientSecret == None
      ensures LimiterSettings(hourEnv, burstEnv).None? <==> limiter == null
      ensures limiter != null ==> fresh(limiter) && limiter.rate == LimiterSettings(hourEnv, burstEnv).value.0
      ensures (Holding(), cacheFile) == Restore(Cleared, cache, now)
    {
      setToken := None;
      csrfToken := None;
      expiry := None;
      clientId := None;
      clientSecret := None;
      lastAuth := None;
      windowStart := WindowStart(now);
      requestsInWindow := 0;
      safeLimit := SafeRequestLimit(safeEnv);
      blockedUntil := None;
      cacheFile := cache;
      sends := [];
      var settings := LimiterSettings(hourEnv, burstEnv);
      if settings.None? {
        limiter := null;
      } else {
        limiter := new RateLimiter.TokenBucket(settings.value.0, settings.value.1, now as real);
      }
      new;
      LoadTokenCache(now);
    }

    /** `configurar_credenciais`. */
    method ConfigureCredentials(id: string, secret: string)
      modifies this
      ensures clientId == Some(id) && clientSecret == Some(secret)
      ensures Holding() == old(Holding()) && CurrentWindow() == old(CurrentWindow())
      ensures safeLimit == old(safeLimit) && blockedUntil == old(blockedUntil)
      ensures limiter == old(limiter) && cacheFile == old(cacheFile) && sends == old(sends)
    {
      clientId := Some(id);
      clientSecret := Some(secret);
    }

    /** `token_valido`. */
    function IsTokenValid(now: int): (r: bool)
      reads this
      ensures r <==> Truthy(setToken) && Truthy(csrfToken) && expiry.Some? && now < expiry.value - SafetyMarginSec
    {
      TokenValid(Tokens(), now)
    }

    /** `obter_headers`: `None` stands for the "token not initialised" error. */
    function AuthHeaders(): (r: Option<map<string, string>>)
      reads this
      ensures r.Some? <==> Truthy(setToken) && Truthy(csrfToken)
      ensures r.Some? ==> r.value.Keys == {"Authorization", "X-CSRF-Token", "Content-Type", "Accept"}
      ensures r.Some? ==> r.value["Authorization"] == setToken.value && r.value["X-CSRF-Token"] == csrfToken.value
    {
      if !Truthy(setToken) || !Truthy(csrfToken) then None
      else Some(map["Authorization" := setToken.value, "X-CSRF-Token" := csrfToken.value,
                    "Content-Type" := "application/json", "Accept" := "application/json"])
    }

    /** `_carregar_token_cache`. */
    method LoadTokenCache(now: int)
      modifies this
      ensures (Holding(), cacheFile) == Restore(old(Holding()), old(cacheFile), now)
      ensures CurrentWindow() == old(CurrentWindow()) && safeLimit == old(safeLimit)
      ensures blockedUntil == old(blockedUntil) && limiter == old(limiter) && sends == old(sends)
      ensures clientId == old(clientId) && clientSecret == old(clientSecret)
    {
      match cacheFile
      case NoFile =>
      case Unreadable =>
        cacheFile := NoFile;
      case Stored(e) =>
        if now - e.cachedAt > CacheMaxAgeSec {
          cacheFile := NoFile;
          return;
        }
        setToken := e.setToken;
        csrfToken := e.csrfToken;
        expiry := Some(e.expiry);
        if e.lastAuth.Some? {
          lastAuth := e.lastAuth;
        }
        if !IsTokenValid(now) {
          cacheFile := NoFile;
          setToken := None;
          csrfToken := None;
          expiry := None;
          lastAuth := None;
        }
    }

    /** `_wait_for_safe_limit`: returns the instant the request is admitted. */
    method WaitForSafeLimit(now: int) returns (clock: int)
      requires Valid()
      modifies this
      ensures Valid()
      ensures safeLimit == old(safeLimit) && blockedUntil == old(blockedUntil) && limiter == old(limiter)
      ensures (CurrentWindow(), clock) == Gate(old(CurrentWindow()), safeLimit, blockedUntil, now)
      ensures Holding() == old(Holding()) && cacheFile == old(cacheFile) && sends == old(sends)
      ensures clientId == old(clientId) && clientSecret == old(clientSecret)
    {
      clock := now;
      if blockedUntil.Some? {
        var wait := blockedUntil.value - clock;
        if wait > 0 {
          clock := clock + wait + 1;
        }
      }
      if safeLimit <= 0 {
        return;
      }
      clock := AdmitFrom(clock);
    }

    /** The admission loop of `_wait_for_safe_limit`, after any block pause. */
    method AdmitFrom(now: int) returns (clock: int)
      requires Valid() && safeLimit > 0
      modifies `windowStart, `requestsInWindow
      ensures Valid()
      ensures (CurrentWindow(), clock) == Admission(old(CurrentWindow()), safeLimit, now)
    {
      clock := now;
      while true
        invariant Valid() && clock >= now
        invariant Admission(CurrentWindow(), safeLimit, clock) == Admission(old(CurrentWindow()), safeLimit, now)
        decreases if windowStart + C.SecondsPerHour - clock > 0 then windowStart + C.SecondsPerHour - clock else 0
      {
        if clock >= windowStart + C.SecondsPerHour {
          windowStart := WindowStart(clock);
          requestsInWindow := 0;
        }
        if requestsInWindow < safeLimit {
          requestsInWindow := requestsInWindow + 1;
          return;
        }
        clock := clock + SecondsUntilNextHour(clock) + 1;
      }
    }

    /**
     * `request`: the safe-limit gate, the token bucket, exactly one send, and
     * on a PUCX-ER1001 reply a pause until the unblock instant. `request`
     * hands the blocked reply back and does not send it again; the retries
     * of the HTTP adapter below it are not modelled, and `reply` is the
     * answer that reaches `request`.
     */
    method Request(now: int, reply: Option<Response>) returns (out: Outcome, clock: int)
      requires Valid()
      modifies this, limiter
      ensures Valid() && limiter == old(limiter) && safeLimit == old(safeLimit)
      ensures |sends| == |old(sends)| + 1 && sends[..|old(sends)|] == old(sends)
      ensures Gate(old(CurrentWindow()), safeLimit, old(blockedUntil), now).1 <= sends[|old(sends)|]
      ensures CurrentWindow() == Gate(old(CurrentWindow()), safeLimit, old(blockedUntil), now).0
      ensures limiter == null ==> sends[|old(sends)|] == Gate(old(CurrentWindow()), safeLimit, old(blockedUntil), now).1
      ensures clock >= sends[|old(sends)|]
      ensures reply.None? ==> out == Raised && clock == sends[|old(sends)|]
      ensures reply.Some? ==> match ExtractRateLimitWait(reply.value.body, sends[|old(sends)|])
        case NotBlocked => out == Reply(reply.value) && clock == sends[|old(sends)|] && blockedUntil == old(blockedUntil)
        case WaitSeconds(w) => out == Reply(reply.value) && clock == sends[|old(sends)|] + w + 1 && blockedUntil == None
        case HintRaises => out == Raised && clock == sends[|old(sends)|] && blockedUntil == old(blockedUntil)
      ensures reply.None? ==> blockedUntil == old(blockedUntil)
      ensures out.Reply? ==> reply.Some? && out.resp == reply.value
      ensures reply.Some? && Quiet(reply.value) ==> out.Reply?
      ensures Holding() == old(Holding()) && cacheFile == old(cacheFile)
      ensures clientId == old(clientId) && clientSecret == old(clientSecret)
    {
      clock := WaitForSafeLimit(now);
      if limiter != null {
        var granted := limiter.AcquireAt(1.0, clock as real);
        RateLimiter.AcquireKeepsBounds(old(limiter.State()), 1.0, clock as real);
        clock := CeilSeconds(granted);
      }
      sends := sends + [clock];
      if reply.None? {
        return Raised, clock;
      }
      match ExtractRateLimitWait(reply.value.body, clock)
      case NotBlocked =>
        out := Reply(reply.value);
      case WaitSeconds(w) =>
        blockedUntil := Some(clock + w);
        clock := clock + w + 1;
        blockedUntil := None;
        out := Reply(reply.value);
      case HintRaises =>
        out := Raised;
    }
    /** The login POST and, after a 422, one more POST sixty seconds later. */
    method SendLogin(now: int, first: Option<Response>, retry: Option<Response>) returns (out: Outcome, clock: int)
      requires Valid()
      modifies this, limiter
      ensures Valid() && limiter == old(limiter) && safeLimit == old(safeLimit)
      ensures |old(sends)| < |sends| <= |old(sends)| + 2 && sends[..|old(sends)|] == old(sends)
      ensures clock >= sends[|sends| - 1] && sends[|old(sends)|] >= now
      ensures |sends| == |old(sends)| + 2 ==>
        first.Some? && first.value.status == 422 && sends[|old(sends)| + 1] >= sends[|old(sends)|] + C.AuthIntervalSec
      ensures out.Reply? ==> DecidingReply(first, retry).Some? && out.resp == DecidingReply(first, retry).value
      ensures first.Some? && Quiet(first.value) && DecidingReply(first, retry).Some?
              && Quiet(DecidingReply(first, retry).value)
        ==> out.Reply?
      ensures Holding() == old(Holding()) && cacheFile == old(cacheFile)
      ensures clientId == old(clientId) && clientSecret == old(clientSecret)
    {
      out, clock := Request(now, first);
      if out.Reply? && out.resp.status == 422 {
        ghost var mid := sends;
        clock := clock + C.AuthIntervalSec;
        out, clock := Request(clock, retry);
        assert sends[..|old(sends)|] == mid[..|old(sends)|];
      }
    }

    /**
     * `autenticar`: reuse a valid token unless forced; otherwise log in at
     * least 60 seconds after the previous login, retry once 60 seconds later
     * on 422, and keep the tokens (and write the cache) only from a reply that
     * is not an HTTP error and carries both tokens.
     */
    method Authenticate(force: bool, now: int, first: Option<Response>, retry: Option<Response>)
      returns (ok: bool, clock: int)
      requires Valid()
      modifies this, limiter
      ensures Valid() && limiter == old(limiter) && safeLimit == old(safeLimit)
      ensures clock >= now
      ensures |old(sends)| <= |sends| <= |old(sends)| + 2 && sends[..|old(sends)|] == old(sends)
      ensures !force && old(IsTokenValid(now)) ==>
        ok && clock == now && sends == old(sends) && Holding() == old(Holding()) && cacheFile == old(cacheFile)
      ensures (force || !old(IsTokenValid(now))) && !(Truthy(clientId) && Truthy(clientSecret)) ==>
        !ok && clock == now && sends == old(sends) && Holding() == old(Holding()) && cacheFile == old(cacheFile)
      ensures (force || !old(IsTokenValid(now))) && Truthy(clientId) && Truthy(clientSecret) ==>
        |sends| > |old(sends)|
      ensures old(lastAuth).Some? ==>
        forall k :: |old(sends)| <= k < |sends| ==> sends[k] >= old(lastAuth).value + C.AuthIntervalSec
      ensures |sends| == |old(sends)| + 2 ==>
        first.Some? && first.value.status == 422 && sends[|old(sends)| + 1] >= sends[|old(sends)|] + C.AuthIntervalSec
      ensures ok && |sends| > |old(sends)| ==>
        DecidingReply(first, retry).Some? && LoginAccepted(DecidingReply(first, retry).value)
        && setToken == DecidingReply(first, retry).value.setToken
        && csrfToken == DecidingReply(first, retry).value.csrfToken
        && expiry == Some(ExpiryFrom(DecidingReply(first, retry).value.expiration, clock))
        && lastAuth == Some(clock)
        && cacheFile == Stored(CacheEntry(setToken, csrfToken, expiry.value, clock, Some(clock)))
      ensures |sends| > |old(sends)| && first.Some? && Quiet(first.value)
              && DecidingReply(first, retry).Some? && Quiet(DecidingReply(first, retry).value)
              && LoginAccepted(DecidingReply(first, retry).value)
        ==> ok
      ensures ok ==> Initialised(Tokens())
      ensures !ok ==> expiry == old(expiry) && lastAuth == old(lastAuth) && cacheFile == old(cacheFile)
      ensures (setToken, csrfToken) == (old(setToken), old(csrfToken))
              || (DecidingReply(first, retry).Some? && !(400 <= DecidingReply(first, retry).value.status < 600)
                  && setToken == DecidingReply(first, retry).value.setToken
                  && csrfToken == DecidingReply(first, retry).value.csrfToken)
      ensures |sends| > |old(sends)| && first.Some? && Quiet(first.value)
              && DecidingReply(first, retry).Some? && Quiet(DecidingReply(first, retry).value)
              && !(400 <= DecidingReply(first, retry).value.status < 600)
        ==> setToken == DecidingReply(first, retry).value.setToken
            && csrfToken == DecidingReply(first, retry).value.csrfToken
      ensures clientId == old(clientId) && clientSecret == old(clientSecret)
    {
      if !force && IsTokenValid(now) {
        return true, now;
      }
      if !Truthy(clientId) || !Truthy(clientSecret) {
        return false, now;
      }
      clock := now;
      if lastAuth.Some? {
        var elapsed := clock - lastAuth.value;
        if elapsed < C.AuthIntervalSec {
          clock := clock + (C.AuthIntervalSec - elapsed);
        }
      }
      var out;
      out, clock := SendLogin(clock, first, retry);
      ok := StoreLogin(out, clock);
    }

    /**
     * The end of `autenticar` once the login reply is in: an exception or an
     * HTTP error keeps every field; any other reply's token headers replace
     * the held ones, and only when both are present are the expiry, the login
     * instant and the cache file written.
     */
    method StoreLogin(out: Outcome, clock: int) returns (ok: bool)
      requires Valid()
      modifies this
      ensures Valid()
      ensures ok <==> out.Reply? && LoginAccepted(out.resp)
      ensures out.Raised? || 400 <= out.resp.status < 600 ==> Holding() == old(Holding())
      ensures out.Reply? && !(400 <= out.resp.status < 600) ==>
        setToken == out.resp.setToken && csrfToken == out.resp.csrfToken
      ensures !ok ==> expiry == old(expiry) && lastAuth == old(lastAuth) && cacheFile == old(cacheFile)
      ensures ok ==>
        expiry == Some(ExpiryFrom(out.resp.expiration, clock)) && lastAuth == Some(clock)
        && cacheFile == Stored(CacheEntry(setToken, csrfToken, expiry.value, clock, Some(clock)))
      ensures CurrentWindow() == old(CurrentWindow()) && safeLimit == old(safeLimit) && blockedUntil == old(blockedUntil)
      ensures limiter == old(limiter) && sends == old(sends)
      ensures clientId == old(clientId) && clientSecret == old(clientSecret)
    {
      if out.Raised? {
        return false;
      }
      var resp := out.resp;
      if resp.status == 401 || resp.status == 403 {
        return false;
      }
      if 400 <= resp.status < 600 {
        return false;
      }
      setToken := resp.setToken;
      csrfToken := resp.csrfToken;
      if !(Truthy(setToken) && Truthy(csrfToken)) {
        return false;
      }
      expiry := Some(ExpiryFrom(resp.expiration, clock));
      lastAuth := Some(clock);
      cacheFile := Stored(EntryFor(Tokens(), lastAuth, clock));
      return true;
    }
  }
}
