// The earlier session manager (kept at the repository root): the same token
// and cache rules, logins posted directly without the request governor, and
// headers built without checking that the tokens exist.
module LegacySession {
  import opened Wrappers
  import C = Constants
  import opened SessionRules
  import opened SessionGate

  class LegacySessionManager {
    var setToken: Option<string>
    var csrfToken: Option<string>
    var expiry: Option<int>
    var clientId: Option<string>
    var clientSecret: Option<string>
    var lastAuth: Option<int>
    var cacheFile: CacheFile
    /** Instants at which login requests were posted, oldest first. */
    ghost var sends: seq<int>

    function Tokens(): TokenFields
      reads this
    {
      TokenFields(setToken, csrfToken, expiry)
    }

    function Holding(): Held
      reads this
    {
      Held(Tokens(), lastAuth)
    }

    constructor (now: int, cache: CacheFile)
      ensures clientId == None && clientSecret == None && sends == []
      ensures (Holding(), cacheFile) == Restore(Cleared, cache, now)
    {
      setToken := None;
      csrfToken := None;
      expiry := None;
      clientId := None;
      clientSecret := None;
      lastAuth := None;
      cacheFile := cache;
      sends := [];
      new;
      LoadTokenCache(now);
    }

    method ConfigureCredentials(id: string, secret: string)
      modifies this
      ensures clientId == Some(id) && clientSecret == Some(secret)
      ensures Holding() == old(Holding()) && cacheFile == old(cacheFile) && sends == old(sends)
    {
      clientId := Some(id);
      clientSecret := Some(secret);
    }

    /** `token_valido`, with the same two-minute margin. */
    function IsTokenValid(now: int): (r: bool)
      reads this
      ensures r <==> Initialised(Tokens()) && now < expiry.value - SafetyMarginSec
    {
      TokenValid(Tokens(), now)
    }

    /** `obter_headers`: never fails; a missing token is sent as `None`. */
    function AuthHeaders(): (r: map<string, Option<string>>)
      reads this
      ensures r.Keys == {"Authorization", "X-CSRF-Token", "Content-Type", "Accept"}
      ensures r["Authorization"] == setToken && r["X-CSRF-Token"] == csrfToken
      ensures r["Content-Type"] == Some("application/json") && r["Accept"] == Some("application/json")
    {
      map["Authorization" := setToken, "X-CSRF-Token" := csrfToken,
          "Content-Type" := Some("application/json"), "Accept" := Some("application/json")]
    }

    /** `_carregar_token_cache`: the same rule as the shared manager. */
    method LoadTokenCache(now: int)
      modifies this
      ensures (Holding(), cacheFile) == Restore(old(Holding()), old(cacheFile), now)
      ensures clientId == old(clientId) && clientSecret == old(clientSecret) && sends == old(sends)
    {
      match cacheFile
      case NoFile =>
      case Unreadable =>
        cacheFile := NoFile;
      case Stored(e) =>
        if now - e.cachedAt > CacheMaxAgeSec {
          cacheFile := NoFile;
          return;
        }
        setToken := e.setToken;
        csrfToken := e.csrfToken;
        expiry := Some(e.expiry);
        if e.lastAuth.Some? {
          lastAuth := e.lastAuth;
        }
        if !IsTokenValid(now) {
          cacheFile := NoFile;
          setToken := None;
          csrfToken := None;
          expiry := None;
          lastAuth := None;
        }
    }

    /** Instant the next login may be posted: 60 seconds after the previous one. */
    function SpacedFrom(now: int): (r: int)
      reads this
      ensures r >= now
      ensures lastAuth.Some? ==> r >= lastAuth.value + C.AuthIntervalSec
      ensures lastAuth.None? || now - lastAuth.value >= C.AuthIntervalSec ==> r == now
    {
      if lastAuth.Some? && now - lastAuth.value < C.AuthIntervalSec
      then now + (C.AuthIntervalSec - (now - lastAuth.value))
      else now
    }

    /**
     * `autenticar` of the earlier manager. A 422 waits 60 seconds, then tops
     * the wait up to 60 seconds after the previous login, and posts once more.
     */
    method Authenticate(force: bool, now: int, first: Option<Response>, retry: Option<Response>)
      returns (ok: bool, clock: int)
      modifies this
      ensures clock >= now
      ensures |old(sends)| <= |sends| <= |old(sends)| + 2 && sends[..|old(sends)|] == old(sends)
      ensures !force && old(IsTokenValid(now)) ==>
        ok && clock == now && sends == old(sends) && Holding() == old(Holding()) && cacheFile == old(cacheFile)
      ensures (force || !old(IsTokenValid(now))) && !(Truthy(clientId) && Truthy(clientSecret)) ==>
        !ok && clock == now && sends == old(sends) && Holding() == old(Holding()) && cacheFile == old(cacheFile)
      ensures (force || !old(IsTokenValid(now))) && Truthy(clientId) && Truthy(clientSecret) ==>
        |sends| > |old(sends)|
      ensures old(lastAuth).Some? ==>
        forall k :: |old(sends)| <= k < |sends| ==> sends[k] >= old(lastAuth).value + C.AuthIntervalSec
      ensures |sends| == |old(sends)| + 2 ==>
        first.Some? && first.value.status == 422 && sends[|old(sends)| + 1] >= sends[|old(sends)|] + C.AuthIntervalSec
      ensures |sends| > |old(sends)| ==>
        (ok <==> DecidingReply(first, retry).Some? && LoginAccepted(DecidingReply(first, retry).value))
      ensures ok && |sends| > |old(sends)| ==>
        setToken == DecidingReply(first, retry).value.setToken
        && csrfToken == DecidingReply(first, retry).value.csrfToken
        && expiry == Some(ExpiryFrom(DecidingReply(first, retry).value.expiration, clock))
        && lastAuth == Some(clock)
        && cacheFile == Stored(CacheEntry(setToken, csrfToken, expiry.value, clock, Some(clock)))
      ensures ok ==> Initialised(Tokens())
      ensures !ok ==> expiry == old(expiry) && lastAuth == old(lastAuth) && cacheFile == old(cacheFile)
      ensures |sends| > |old(sends)| && DecidingReply(first, retry).Some?
              && !(400 <= DecidingReply(first, retry).value.status < 600)
        ==> setToken == DecidingReply(first, retry).value.setToken
            && csrfToken == DecidingReply(first, retry).value.csrfToken
      ensures |sends| == |old(sends)| || DecidingReply(first, retry).None?
              || 400 <= DecidingReply(first, retry).value.status < 600
        ==> setToken == old(setToken) && csrfToken == old(csrfToken)
      ensures clientId == old(clientId) && clientSecret == old(clientSecret)
    {
      if !force && IsTokenValid(now) {
        return true, now;
      }
      if !Truthy(clientId) || !Truthy(clientSecret) {
        return false, now;
      }
      clock := SpacedFrom(now);
      sends := sends + [clock];
      var reply := first;
      if first.Some? && first.value.status == 422 {
        clock := SpacedFrom(clock + C.AuthIntervalSec);
        sends := sends + [clock];
        reply := retry;
      }
      ok := StoreLogin(reply, clock);
    }

    /**
     * The end of `autenticar` once the login reply is in: a transport error
     * or an HTTP error keeps every field; any other reply's token headers
     * replace the held ones, and only when both are present are the expiry,
     * the login instant and the cache file written.
     */
    method StoreLogin(reply: Option<Response>, clock: int) returns (ok: bool)
      modifies this
      ensures ok <==> reply.Some? && LoginAccepted(reply.value)
      ensures reply.None? || 400 <= reply.value.status < 600 ==> Holding() == old(Holding())
      ensures reply.Some? && !(400 <= reply.value.status < 600) ==>
        setToken == reply.value.setToken && csrfToken == reply.value.csrfToken
      ensures !ok ==> expiry == old(expiry) && lastAuth == old(lastAuth) && cacheFile == old(cacheFile)
      ensures ok ==>
        expiry == Some(ExpiryFrom(reply.value.expiration, clock)) && lastAuth == Some(clock)
        && cacheFile == Stored(CacheEntry(setToken, csrfToken, expiry.value, clock, Some(clock)))
      ensures sends == old(sends) && clientId == old(clientId) && clientSecret == old(clientSecret)
    {
      if reply.None? {
        return false;
      }
      var resp := reply.value;
      if resp.status == 401 || resp.status == 403 {
        return false;
      }
      if 400 <= resp.status < 600 {
        return false;
      }
      setToken := resp.setToken;
      csrfToken := resp.csrfToken;
      if !(Truthy(setToken) && Truthy(csrfToken)) {
        return false;
      }
      expiry := Some(ExpiryFrom(resp.expiration, clock));
      lastAuth := Some(clock);
      cacheFile := Stored(EntryFor(Tokens(), lastAuth, clock));
      return true;
    }
  }
}
