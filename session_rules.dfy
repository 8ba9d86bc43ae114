// Pure rules of the Siscomex session manager (token validity, the hourly
// request window, the PUCX-ER1001 unblock hint). Instants are whole seconds;
// a "day" starts at a multiple of 86400 and an hour at a multiple of 3600.
module SessionRules {
  import opened Wrappers
  import C = Constants

  const SafetyMarginSec: int := C.TokenSafetyMarginMin * 60

  /** The three token fields; a missing or empty string counts as absent. */
  datatype TokenFields = TokenFields(setToken: Option<string>, csrfToken: Option<string>, expiry: Option<int>)

  predicate Initialised(t: TokenFields)
  {
    Truthy(t.setToken) && Truthy(t.csrfToken) && t.expiry.Some?
  }

  /** `token_valido`: usable until two minutes before the expiry instant. */
  predicate TokenValid(t: TokenFields, now: int)
  {
    Initialised(t) && now < t.expiry.value - SafetyMarginSec
  }

  datatype TokenStatus = NotInitialised | Expired | Usable | InSafetyMargin

  /** `status_token`, without the minute counts of its message. */
  function Status(t: TokenFields, now: int): (r: TokenStatus)
    ensures r == NotInitialised <==> !Initialised(t)
  {
    if !Initialised(t) then NotInitialised
    else if t.expiry.value - now <= 0 then Expired
    else if TokenValid(t, now) then Usable
    else InSafetyMargin
  }

  /** The status is exactly one of four ranges of the remaining time. */
  lemma StatusRanges(t: TokenFields, now: int)
    requires Initialised(t)
    ensures Status(t, now) == Expired <==> now >= t.expiry.value
    ensures Status(t, now) == Usable <==> TokenValid(t, now)
    ensures Status(t, now) == InSafetyMargin <==>
      t.expiry.value - SafetyMarginSec <= now < t.expiry.value
  {
  }

  /** A token valid now was valid at every earlier instant. */
  lemma ValidityIsMonotone(t: TokenFields, earlier: int, now: int)
    requires earlier <= now && TokenValid(t, now)
    ensures TokenValid(t, earlier)
    ensures Status(t, earlier) == Usable
  {
  }

  /** Start of the hour containing `now` (minute, second and microsecond set to 0). */
  function WindowStart(now: int): (r: int)
    ensures r % C.SecondsPerHour == 0 && r <= now < r + C.SecondsPerHour
  {
    now - now % C.SecondsPerHour
  }

  /** `_seconds_until_next_hour`: never zero, never more than an hour. */
  function SecondsUntilNextHour(now: int): (r: int)
    ensures 0 < r <= C.SecondsPerHour
    ensures (now + r) % C.SecondsPerHour == 0
  {
    WindowStart(now) + C.SecondsPerHour - now
  }

  /** The hourly request window: start instant and requests admitted in it. */
  datatype Window = Window(start: int, count: int)

  /**
   * The admission loop of `_wait_for_safe_limit` with a positive safe limit:
   * reset the window once its hour is over, admit while under the limit, else
   * sleep until one second past the next full hour and try again. Returns the
   * new window and the instant of admission.
   */
  function Admission(w: Window, limit: int, now: int): (r: (Window, int))
    requires limit > 0 && 0 <= w.count <= limit
    ensures r.1 >= now && 1 <= r.0.count <= limit
    ensures r.0.count == 1 || (r.0.start == w.start && r.0.count == w.count + 1)
    ensures r.0.count == 1 ==> r.0.start == w.start || r.0.start == WindowStart(r.1)
    ensures now < w.start + C.SecondsPerHour && w.count < limit ==> r == (w.(count := w.count + 1), now)
    ensures now >= w.start + C.SecondsPerHour ==> r == (Window(WindowStart(now), 1), now)
    decreases if w.start + C.SecondsPerHour - now > 0 then w.start + C.SecondsPerHour - now else 0
  {
    var w1 := if now >= w.start + C.SecondsPerHour then Window(WindowStart(now), 0) else w;
    if w1.count < limit then (w1.(count := w1.count + 1), now)
    else Admission(w1, limit, now + SecondsUntilNextHour(now) + 1)
  }

  /** From a window that started in the past, admission needs at most one wait. */
  lemma {:induction false} AdmissionWaitsAtMostOnce(w: Window, limit: int, now: int)
    requires limit > 0 && 0 <= w.count <= limit
    requires w.start % C.SecondsPerHour == 0 && w.start <= now
    ensures Admission(w, limit, now).1 <= now + SecondsUntilNextHour(now) + 1
    ensures Admission(w, limit, now).0.start <= Admission(w, limit, now).1
    ensures Admission(w, limit, now).1 < Admission(w, limit, now).0.start + C.SecondsPerHour
  {
    var w1 := if now >= w.start + C.SecondsPerHour then Window(WindowStart(now), 0) else w;
    if w1.count >= limit {
      var later := now + SecondsUntilNextHour(now) + 1;
      assert w.start <= WindowStart(now);
      assert later >= w1.start + C.SecondsPerHour;
      assert Admission(w1, limit, later) == (Window(WindowStart(later), 1), later);
    }
  }

  /** A full window is never admitted into before its hour is over. */
  lemma {:induction false} FullWindowWaits(w: Window, limit: int, now: int)
    requires limit > 0 && w.count == limit && now < w.start + C.SecondsPerHour
    ensures Admission(w, limit, now).1 > now
    ensures Admission(w, limit, now).1 >= w.start + C.SecondsPerHour
    decreases w.start + C.SecondsPerHour - now
  {
    var later := now + SecondsUntilNextHour(now) + 1;
    if later < w.start + C.SecondsPerHour {
      FullWindowWaits(w, limit, later);
    }
  }

  // ---- The PUCX-ER1001 unblock hint: "após as H:MM" or "após as HH:MM:SS". ----

  const HintPrefix: string := "após as "

  predicate IsDigit(c: char) { '0' <= c <= '9' }

  function DigitVal(c: char): (d: int)
    requires IsDigit(c)
    ensures 0 <= d <= 9
  {
    c as int - '0' as int
  }

  function TwoDigitsAt(s: string, j: nat): (v: int)
    requires j + 2 <= |s| && IsDigit(s[j]) && IsDigit(s[j + 1])
    ensures 0 <= v <= 99
  {
    10 * DigitVal(s[j]) + DigitVal(s[j + 1])
  }

  datatype Clock = Clock(hour: int, minute: int, second: int)

  /** The optional `(?::(\d{2}))?` group after the minutes, starting at `k`. */
  function WithSeconds(s: string, k: nat, c: Clock): (r: Clock)
    ensures r.hour == c.hour && r.minute == c.minute
    ensures r.second == c.second || 0 <= r.second <= 99
  {
    if k + 3 <= |s| && s[k] == ':' && IsDigit(s[k + 1]) && IsDigit(s[k + 2])
    then c.(second := TwoDigitsAt(s, k + 1))
    else c
  }

  /**
   * Whether `após as (\d{1,2}):(\d{2})(?::(\d{2}))?` matches at index `i`:
   * the greedy hour group tries two digits before one.
   */
  function MatchAt(s: string, i: nat): (r: Option<Clock>)
    ensures r.Some? ==> 0 <= r.value.hour <= 99 && 0 <= r.value.minute <= 99 && 0 <= r.value.second <= 99
    ensures r.Some? ==> i + |HintPrefix| <= |s| && s[i..i + |HintPrefix|] == HintPrefix
  {
    var p := |HintPrefix|;
    if i + p > |s| || s[i..i + p] != HintPrefix then None
    else
      var j := i + p;
      if j + 5 <= |s| && IsDigit(s[j]) && IsDigit(s[j + 1]) && s[j + 2] == ':'
         && IsDigit(s[j + 3]) && IsDigit(s[j + 4])
      then Some(WithSeconds(s, j + 5, Clock(TwoDigitsAt(s, j), TwoDigitsAt(s, j + 3), 0)))
      else if j + 4 <= |s| && IsDigit(s[j]) && s[j + 1] == ':' && IsDigit(s[j + 2]) && IsDigit(s[j + 3])
      then Some(WithSeconds(s, j + 4, Clock(DigitVal(s[j]), TwoDigitsAt(s, j + 2), 0)))
      else None
  }

  /** `re.search`: the leftmost index at or after `i` where the pattern matches. */
  function SearchFrom(s: string, i: nat): (r: Option<(nat, Clock)>)
    ensures r.Some? ==> i <= r.value.0 < |s| && MatchAt(s, r.value.0) == Some(r.value.1)
    ensures r.Some? ==> forall j :: i <= j < r.value.0 ==> MatchAt(s, j).None?
    ensures r.None? ==> forall j :: i <= j < |s| ==> MatchAt(s, j).None?
    decreases |s| - i
  {
    if i >= |s| then None
    else if MatchAt(s, i).Some? then Some((i, MatchAt(s, i).value))
    else SearchFrom(s, i + 1)
  }

  datatype Unblock = NoHint | InvalidClock | UnblockAt(instant: int)

  /**
   * `_parse_block_until`: today at the hinted time, or tomorrow when that
   * instant is not after `now`. An hour above 23 or a minute or second above
   * 59 makes `datetime.replace` raise.
   */
  function ParseBlockUntil(message: string, now: int): (r: Unblock)
    ensures r.UnblockAt? ==> now < r.instant <= now + C.SecondsPerDay
    ensures r.NoHint? <==> SearchFrom(message, 0).None?
  {
    match SearchFrom(message, 0)
    case None => NoHint
    case Some((_, c)) =>
      if c.hour > 23 || c.minute > 59 || c.second > 59 then InvalidClock
      else
        var today := now - now % C.SecondsPerDay + 3600 * c.hour + 60 * c.minute + c.second;
        UnblockAt(if today <= now then today + C.SecondsPerDay else today)
  }

  /** Renders a number below 100 with two digits, as the server writes times. */
  function Pad2(n: int): (s: string)
    requires 0 <= n <= 99
    ensures |s| == 2 && IsDigit(s[0]) && IsDigit(s[1]) && TwoDigitsAt(s, 0) == n
  {
    [DigitChar(n / 10), DigitChar(n % 10)]
  }

  /** A hint written as "após as HH:MM:SS" is read back as exactly that time. */
  lemma {:induction false} HintRoundTrip(prefix: string, h: int, m: int, sec: int, now: int)
    requires 0 <= h <= 23 && 0 <= m <= 59 && 0 <= sec <= 59
    requires forall j :: 0 <= j < |prefix| ==> MatchAt(prefix + HintPrefix + Pad2(h) + ":" + Pad2(m) + ":" + Pad2(sec), j).None?
    ensures var msg := prefix + HintPrefix + Pad2(h) + ":" + Pad2(m) + ":" + Pad2(sec);
      SearchFrom(msg, 0) == Some((|prefix|, Clock(h, m, sec)))
      && ParseBlockUntil(msg, now).UnblockAt?
      && (ParseBlockUntil(msg, now).instant - (3600 * h + 60 * m + sec)) % C.SecondsPerDay == 0
  {
    var msg := prefix + HintPrefix + Pad2(h) + ":" + Pad2(m) + ":" + Pad2(sec);
    var i := |prefix|;
    var j := i + |HintPrefix|;
    assert msg[i..j] == HintPrefix;
    assert msg[j..j + 2] == Pad2(h);
    assert msg[j + 3..j + 5] == Pad2(m);
    assert msg[j + 6..j + 8] == Pad2(sec);
    assert msg[j + 2] == ':' && msg[j + 5] == ':';
    assert TwoDigitsAt(msg, j) == h by { assert msg[j] == Pad2(h)[0] && msg[j + 1] == Pad2(h)[1]; }
    assert TwoDigitsAt(msg, j + 3) == m by { assert msg[j + 3] == Pad2(m)[0] && msg[j + 4] == Pad2(m)[1]; }
    assert TwoDigitsAt(msg, j + 6) == sec by { assert msg[j + 6] == Pad2(sec)[0] && msg[j + 7] == Pad2(sec)[1]; }
    assert MatchAt(msg, i) == Some(Clock(h, m, sec));
    SearchSkips(msg, 0, i);
  }

  /** Searching from `i` skips indices where the pattern does not match. */
  lemma {:induction false} SearchSkips(s: string, i: nat, k: nat)
    requires i <= k < |s| && MatchAt(s, k).Some?
    requires forall j :: i <= j < k ==> MatchAt(s, j).None?
    ensures SearchFrom(s, i) == Some((k, MatchAt(s, k).value))
    decreases k - i
  {
    if i < k {
      SearchSkips(s, i + 1, k);
    }
  }

  /**
   * The "message" member as `data.get("message", "")` reads it: a missing
   * member is the empty text; null, a number, a list or an object is not text.
   */
  datatype Message = Text(s: string) | NotText

  /** Decoded JSON body of a response, as far as the block detection reads it. */
  datatype Body = NotJson | JsonObject(code: Option<string>, message: Message) | OtherJson

  const BlockCode: string := "PUCX-ER1001"

  /**
   * `HintRaises`: reading the hint raises, either a TypeError from
   * `re.search` on a message that is not text or a ValueError from
   * `now.replace` on an out-of-range time; neither is caught.
   */
  datatype BlockWait = NotBlocked | WaitSeconds(seconds: int) | HintRaises

  /**
   * `_extract_rate_limit_wait`: only a JSON object whose code is PUCX-ER1001
   * is a block; the wait runs to the hinted instant, or to the next full hour
   * when the message has no hint.
   */
  function ExtractRateLimitWait(body: Body, now: int): (r: BlockWait)
    ensures r != NotBlocked <==> body.JsonObject? && body.code == Some(BlockCode)
    ensures r.WaitSeconds? ==> 0 <= r.seconds <= C.SecondsPerDay
    ensures body.JsonObject? && body.code == Some(BlockCode) && body.message.Text?
            && ParseBlockUntil(body.message.s, now).UnblockAt? ==>
      r == WaitSeconds(ParseBlockUntil(body.message.s, now).instant - now)
    ensures r.WaitSeconds? && body.JsonObject? && body.message.Text? && ParseBlockUntil(body.message.s, now).NoHint? ==>
      0 < r.seconds <= C.SecondsPerHour && (now + r.seconds) % C.SecondsPerHour == 0
    ensures r.HintRaises? <==> body.JsonObject? && body.code == Some(BlockCode)
                               && (body.message.NotText? || ParseBlockUntil(body.message.s, now).InvalidClock?)
  {
    if body.JsonObject? && body.code == Some(BlockCode) then
      match body.message
      case NotText => HintRaises
      case Text(m) =>
        match ParseBlockUntil(m, now)
        case UnblockAt(at) => WaitSeconds(if at - now > 0 then at - now else 0)
        case NoHint => WaitSeconds(SecondsUntilNextHour(now))
        case InvalidClock => HintRaises
    else NotBlocked
  }

  /** An environment variable read with `int(os.getenv(name, default))`. */
  datatype EnvInt = Unset | Invalid | Parsed(n: int)

  /** `_load_safe_request_limit`. */
  function SafeRequestLimit(env: EnvInt): (r: int)
    ensures env.Parsed? ==> r == env.n
    ensures !env.Parsed? ==> r == C.SafeRequestLimit
  {
    match env
    case Parsed(n) => n
    case _ => C.SafeRequestLimit
  }

  /** `_build_rate_limiter`'s parameters: `None` when the hourly limit disables the bucket. */
  function LimiterSettings(hourEnv: EnvInt, burstEnv: EnvInt): (r: Option<(real, int)>)
    ensures r.Some? ==> r.value.0 > 0.0
    ensures (hourEnv.Invalid? || burstEnv.Invalid?) ==>
      r == Some((C.RateLimitHour as real / 3600.0, C.RateLimitBurst))
  {
    var hour := if hourEnv.Invalid? || burstEnv.Invalid? then C.RateLimitHour
                else if hourEnv.Parsed? then hourEnv.n else C.RateLimitHour;
    var burst := if hourEnv.Invalid? || burstEnv.Invalid? then C.RateLimitBurst
                 else if burstEnv.Parsed? then burstEnv.n else C.RateLimitBurst;
    if hour <= 0 then None else Some((hour as real / 3600.0, burst))
  }
}

module SessionGate {
  import opened Wrappers
  import C = Constants
  import opened SessionRules

  /** Instant after the coordinated pause of an active PUCX-ER1001 block (sleep of wait + 1). */
  function AfterBlock(blocked: Option<int>, now: int): (r: int)
    ensures r >= now
    ensures r > now <==> blocked.Some? && blocked.value > now
    ensures r > now ==> r == blocked.value + 1
  {
    if blocked.Some? && blocked.value - now > 0 then blocked.value + 1 else now
  }

  /**
   * `_wait_for_safe_limit` as a value: the pause for an active block, then,
   * with a positive safe limit, admission into the hourly window.
   */
  function Gate(w: Window, limit: int, blocked: Option<int>, now: int): (r: (Window, int))
    requires 0 <= w.count && (limit > 0 ==> w.count <= limit)
    ensures r.1 >= AfterBlock(blocked, now)
    ensures limit <= 0 ==> r == (w, AfterBlock(blocked, now))
    ensures limit > 0 ==> 1 <= r.0.count <= limit
  {
    var t := AfterBlock(blocked, now);
    if limit <= 0 then (w, t) else Admission(w, limit, t)
  }

  /** Rounds a monotonic-clock instant up to the next whole second. */
  function CeilSeconds(x: real): (r: int)
    ensures x <= r as real < x + 1.0
  {
    if x.Floor as real == x then x.Floor else x.Floor + 1
  }

  // ---- The persistent token cache (a pickled dict in the source). ----

  const CacheMaxAgeSec: int := 5400

  datatype CacheEntry = CacheEntry(setToken: Option<string>, csrfToken: Option<string>, expiry: int,
                                   cachedAt: int, lastAuth: Option<int>)

  /** The cache file: absent, unreadable (any load error), or holding an entry. */
  datatype CacheFile = NoFile | Unreadable | Stored(entry: CacheEntry)

  /** What the manager holds: the token fields and the instant of the last login. */
  datatype Held = Held(token: TokenFields, lastAuth: Option<int>)

  const Cleared: Held := Held(TokenFields(None, None, None), None)

  /**
   * `_carregar_token_cache`: a stale (over 90 minutes) or unreadable file is
   * deleted and nothing is restored; a fresh one is restored, and removed
   * together with the restored fields when its token is no longer valid.
   */
  function Restore(h: Held, f: CacheFile, now: int): (r: (Held, CacheFile))
    ensures r.1 == f || r.1 == NoFile
    ensures r.1.Stored? ==>
      TokenValid(r.0.token, now) && r.0.token == TokenFields(f.entry.setToken, f.entry.csrfToken, Some(f.entry.expiry))
    ensures r.0 == h || r.0 == Cleared || TokenValid(r.0.token, now)
  {
    match f
    case NoFile => (h, NoFile)
    case Unreadable => (h, NoFile)
    case Stored(e) =>
      if now - e.cachedAt > CacheMaxAgeSec then (h, NoFile)
      else
        var t := TokenFields(e.setToken, e.csrfToken, Some(e.expiry));
        var last := if e.lastAuth.Some? then e.lastAuth else h.lastAuth;
        if TokenValid(t, now) then (Held(t, last), f) else (Cleared, NoFile)
  }

  /** The entry written after a login, as `_salvar_token_cache` builds it. */
  function EntryFor(t: TokenFields, lastAuth: Option<int>, now: int): (e: CacheEntry)
    requires Initialised(t)
    ensures e.cachedAt == now && Restore(Cleared, Stored(e), now).1 != Unreadable
  {
    CacheEntry(t.setToken, t.csrfToken, t.expiry.value, now, lastAuth)
  }

  /**
   * A saved token is restored exactly while it is fresh and valid, and the
   * file is dropped as soon as either fails.
   */
  lemma SavedTokenReloads(t: TokenFields, savedAt: int, h: Held, now: int)
    requires Initialised(t)
    ensures var f := Stored(EntryFor(t, Some(savedAt), savedAt));
      (now - savedAt <= CacheMaxAgeSec && TokenValid(t, now) ==> Restore(h, f, now) == (Held(t, Some(savedAt)), f))
      && (now - savedAt > CacheMaxAgeSec ==> Restore(h, f, now) == (h, NoFile))
      && (now - savedAt <= CacheMaxAgeSec && !TokenValid(t, now) ==> Restore(h, f, now) == (Cleared, NoFile))
  {
  }

  /** Login response headers and status, as far as authentication reads them. */
  datatype ExpiryHeader = NoHeader | Malformed | Millis(ms: int)

  datatype Response = Response(status: int, body: Body, setToken: Option<string>,
                               csrfToken: Option<string>, expiration: ExpiryHeader)

  /** Expiry instant after a login: the header's epoch milliseconds, else one hour from now. */
  function ExpiryFrom(h: ExpiryHeader, now: int): (r: int)
    ensures h.Millis? ==> r * 1000 <= h.ms < r * 1000 + 1000
    ensures !h.Millis? ==> r == now + C.TokenValidityMin * 60
  {
    if h.Millis? then h.ms / 1000 else now + C.TokenValidityMin * 60
  }

  /** The reply that decides a login: the retry when the first answer was 422. */
  function DecidingReply(first: Option<Response>, retry: Option<Response>): Option<Response>
  {
    if first.Some? && first.value.status == 422 then retry else first
  }

  /** A reply `raise_for_status` lets through that carries both tokens. */
  predicate LoginAccepted(r: Response)
  {
    !(400 <= r.status < 600) && Truthy(r.setToken) && Truthy(r.csrfToken)
  }

  /** A body that is not a PUCX-ER1001 block (so reading it cannot raise). */
  predicate Quiet(r: Response)
  {
    !(r.body.JsonObject? && r.body.code == Some(BlockCode))
  }
}
