# Siscomex DUE synchronisation, modelled in Dafny

The system keeps a PostgreSQL copy of Brazilian export declarations (DUEs) in
step with the Siscomex Portal Único API. It discovers the DUEs linked to
invoice keys (chaves de NF) not yet linked, and it refreshes stored DUEs whose
remote state may have changed. The API has a strict hourly quota. Going over it
(PUCX-ER1001, or HTTP 429) blocks the client for a while, so the code guards
every request and saves what it has fetched when it is stopped.

This project models the decision logic and data reshaping of that code:

- **Session manager and request governor**:
  - token validity with a two-minute margin;
  - the 60-second spacing of logins and the single delayed retry on 422;
  - the token cache and its 5400-second staleness ceiling;
  - the hourly safe-request window;
  - the "após as HH:MM[:SS]" unblock hint.

  These are in `SessionRules`, `SessionGate`, `Session` and `LegacySession`.
- **Token bucket**: in `RateLimiter`.
- **Configuration checks and metrics collector**: in `ConfigValidator` and `Metrics`.
- **Refresh run**: the candidate query, classification, per-run cap, change
  check, supplementary queries and phase control. These are in `Refresh`, and
  the older script in `LegacyRefresh`.
- **Discovery run**: unlinked keys, the query cap, link persistence with
  retries, and download with a stop on rate limit. These are in `Discovery`,
  and the older script in `LegacyDiscovery`.
- **DUE normaliser** (`processar_dados_due`): one payload flattened into 21 row
  lists linked by derived ids. This is in `DueNormalizer`, with the structural
  properties in `DueNormalizerProperties`.
- **Key lookups, caches and consolidation**: the key lookups, the caches shared
  by the parallel lookups, the consolidation that adds each DUE once, and the
  incremental CSV merge. These are in `DueLookup`, `DueCache` and `CsvMerge`.
- **Database layer**: value cleaning, derived ids, upsert versus
  delete-then-insert, NF→DUE links, and the last-sync update in lots of 50.
  These are in `DbValues` and `Persistence`.
- **TABX support tables**: building the request, handling one table,
  normalising, the download loop with its retries, and the saved files and
  summary. These are in `SupportTables` and `TableDownload`.

The model follows the code's own form:
- Objects whose fields change become classes with `modifies` clauses:
  - `Session.SessionManager`;
  - `LegacySession.LegacySessionManager`;
  - `RateLimiter.TokenBucket`;
  - `Metrics.MetricsCollector`;
  - `DueCache.KeyCaches`;
  - `Persistence.DatabaseManager`.
- Loops become methods proved against a function that specifies them.
- Pure reshaping becomes functions and lemmas.

The following are plain inputs of the model:
- every HTTP reply;
- every database read;
- the clock;
- the operator's answer;
- the order in which a worker pool completes its tasks, which module `Completion` relates back to the tasks submitted. When each task completes once, the runs report every task.

All times are whole seconds except in the token bucket, whose clock is a real
number.

### Behaviour worth noting

- `request` (src/api/siscomex/token.py:225-257) does not raise on a
  PUCX-ER1001 block. It sleeps until the unblock instant and then returns
  that reply without sending it again. `Session.SessionManager.Request`
  states this. The HTTP adapter below `request` re-sends a GET answered with
  429 or 5xx up to three times on its own; that adapter is not part of this
  model (see "Left out"). A reply that reaches `request` raises when it is a
  PUCX-ER1001 block whose message is not text (`re.search` in
  `_parse_block_until`) or whose hinted time is out of range. As a consequence the `except RateLimitError` handlers around
  the supplementary queries (src/sync/update_dues.py:105, 403 and
  src/sync/new_dues.py:106, 276), and the breaks they feed in refresh phase 1
  and in the discovery download loop, can never run. The model keeps them as
  written, with a `RateLimitRaised` call outcome. `Refresh.RequestNeverStopsPhase1`
  and `Discovery.RequestNeverStopsDownloads` state that with replies from
  `request` neither loop stops on a rate limit.
- A 401 is not retried inside `request`. The invoice-key lookups and the TABX
  download turn a 401 into a `token_expirado` marker; those runs then
  re-authenticate once and take a second pass over the marked keys. The
  refresh change check counts a 401 as an error.
- `inserir_vinculos_batch` upserts on `chave_nf`, so a persisted link is
  overwritten with the new DUE number. `Persistence.LinksLast` states this.
- `_salvar_dados_parciais` unpacks the `None` returned by
  `salvar_resultados_normalizados` and so always reports 0 records saved.
  `Refresh.PartialSaveReportsNothing` states this behaviour;
  `Refresh.PartialSave` states the count of the records written, for
  comparison.

## Model

| member | source | states |
|---|---|---|
| SessionRules.Status | src/api/siscomex/token.py:451-464 | "not initialised" exactly when one of the three token fields is missing |
| SessionRules.StatusRanges | token_manager.py:306-319 | an initialised token is expired iff now ≥ expiry, valid iff `token_valido` holds, and in the safety margin iff now lies in the last two minutes before expiry |
| SessionRules.ValidityIsMonotone | src/api/siscomex/token.py:269-283 | a token valid now was valid at every earlier instant |
| SessionRules.WindowStart | src/api/siscomex/token.py:131-134 | the window starts on a whole hour, at or before now and less than an hour before it |
| SessionRules.SecondsUntilNextHour | src/api/siscomex/token.py:136-140 | the wait is in (0, 3600] and ends on a whole hour |
| SessionRules.Admission | src/api/siscomex/token.py:163-181 | admission never happens before the call and leaves 1 ≤ count ≤ safe limit; a current window with room admits at once with one more request; an elapsed window restarts at the current hour with count 1 and admits at once; a full current window waits, then opens a new window at the hour of admission |
| SessionRules.AdmissionWaitsAtMostOnce | src/api/siscomex/token.py:163-181 | from a past window admission waits at most once, until one second past the next full hour, and the admission instant lies inside the resulting window |
| SessionRules.FullWindowWaits | src/api/siscomex/token.py:170-181 | a window holding the full safe limit admits nothing before its hour is over: the admission instant is at least the window start plus one hour |
| SessionRules.SearchFrom | src/api/siscomex/token.py:185 | `re.search` finds the leftmost index where "após as H:MM[:SS]" matches, and None only when no index matches |
| SessionRules.ParseBlockUntil | src/api/siscomex/token.py:183-196 | no hint iff the pattern matches nowhere; an unblock instant is always after now and at most a day later |
| SessionRules.HintRoundTrip | src/api/siscomex/token.py:185-196 | a message containing "após as HH:MM:SS" is read back as exactly that clock time, landing on that time of day |
| SessionRules.ExtractRateLimitWait | src/api/siscomex/token.py:198-223 | only a JSON object with code PUCX-ER1001 is a block; with a text message and a hinted unblock instant the wait is exactly that instant minus now; without a hint it runs to the next full hour; every wait lies in [0, one day]; a message that is not text (re.search raises) or an out-of-range hinted time (replace raises) raises |
| SessionRules.SafeRequestLimit | src/api/siscomex/token.py:124-129 | the safe limit is the environment's integer, else 900 |
| SessionRules.LimiterSettings | src/api/siscomex/token.py:109-122 | a bucket is built only with a positive rate, and unparsable settings fall back to 1000 per hour and a burst of 20 |
| SessionGate.AfterBlock | src/api/siscomex/token.py:150-158 | the pause happens iff a block runs past now, and then ends one second after the unblock instant |
| SessionGate.Gate | src/api/siscomex/token.py:142-181 | `_wait_for_safe_limit` never admits before the block pause; a safe limit ≤ 0 leaves the window alone, and otherwise 1 ≤ count ≤ safe limit afterwards |
| SessionGate.CeilSeconds | src/api/siscomex/token.py:238-240 | the bucket's grant instant is rounded up to the next whole second |
| SessionGate.Restore | src/api/siscomex/token.py:407-449 | the cache file is kept or deleted, never changed; a kept file has restored a token that is valid now, taken from the file |
| SessionGate.EntryFor | src/api/siscomex/token.py:390-403 | a saved entry is stamped with the save instant and is readable |
| SessionGate.SavedTokenReloads | src/api/siscomex/token.py:414-442 | a saved token is restored exactly while it is at most 5400 s old and valid; an older file is dropped with nothing restored, and an invalid one is dropped with every token field cleared |
| SessionGate.ExpiryFrom | src/api/siscomex/token.py:369-381 | the expiry is the header's epoch milliseconds in whole seconds, or now + 60 minutes when the header is absent or not an integer |
| Session.SessionManager.constructor | src/api/siscomex/token.py:66-86 | a new manager has no token or credentials, the current hour's empty window, the environment's safe limit, a bucket iff the hourly limit is positive, and then the cache's restore |
| Session.SessionManager.ConfigureCredentials | src/api/siscomex/token.py:259-267 | stores both credentials and changes nothing else |
| Session.SessionManager.IsTokenValid | src/api/siscomex/token.py:269-283 | valid iff both tokens and the expiry are present and now is before expiry minus two minutes |
| Session.SessionManager.AuthHeaders | src/api/siscomex/token.py:285-294 | the headers exist iff both tokens are set, with exactly the four keys and the tokens as Authorization and X-CSRF-Token |
| Session.SessionManager.LoadTokenCache | src/api/siscomex/token.py:407-449 | the new token fields and cache file are `Restore` of the old ones; nothing else changes |
| Session.SessionManager.WaitForSafeLimit | src/api/siscomex/token.py:142-181 | the new window and the admission instant are `Gate` of the old window, limit and block |
| Session.SessionManager.AdmitFrom | src/api/siscomex/token.py:162-181 | the admission loop changes only the window, which becomes `Admission` of the old window at the given instant |
| Session.SessionManager.Request | src/api/siscomex/token.py:225-257 | `request` itself sends exactly once, not before the gate admits it; a PUCX-ER1001 reply sleeps the wait plus one second and clears the block; the reply is returned and `request` does not send it again; a message that is not text or an out-of-range hinted time raises; the token fields are unchanged (the HTTP adapter's own retries are not modelled) |
| Session.SessionManager.SendLogin | src/api/siscomex/token.py:335-352 | one POST, plus exactly one more at least 60 s later only after a 422; the reply returned is the one that decides the login |
| Session.SessionManager.Authenticate | src/api/siscomex/token.py:305-388 | an unforced call with a valid token returns True with no send; missing credentials return False with no send; every send is at least 60 s after the previous login; a second send only follows a 422; success keeps the deciding reply's tokens, its expiry, the login instant and writes the cache; a failure keeps the expiry, the login instant and the cache file; the token fields change only to the headers of a deciding reply that is not an HTTP error, and such a reply always replaces them |
| Session.SessionManager.StoreLogin | src/api/siscomex/token.py:354-388 | an exception or an HTTP error keeps every field; any other reply's tokens replace the held ones; only a reply with both tokens sets the expiry, the login instant and the cache file, and True is returned exactly then |
| LegacySession.LegacySessionManager.constructor | token_manager.py:53-67 | a new manager has no credentials and holds what the cache restores |
| LegacySession.LegacySessionManager.ConfigureCredentials | token_manager.py:90-93 | stores both credentials and changes nothing else |
| LegacySession.LegacySessionManager.IsTokenValid | token_manager.py:95-105 | valid iff the three fields are present and now is before expiry minus two minutes |
| LegacySession.LegacySessionManager.AuthHeaders | token_manager.py:107-114 | never fails: the four keys, with the current token values, possibly None |
| LegacySession.LegacySessionManager.LoadTokenCache | token_manager.py:262-304 | the same restore rule as the shared manager |
| LegacySession.LegacySessionManager.SpacedFrom | token_manager.py:142-147 | the next login is posted at now, or 60 s after the previous login when that is later |
| LegacySession.LegacySessionManager.Authenticate | token_manager.py:116-243 | as the shared manager, with the ok result of a login exactly "the deciding reply passes and carries both tokens", and the 422 retry at least 60 s after the first POST; a failure keeps the expiry, the login instant and the cache file; after a send, the token fields become the deciding reply's headers unless it is missing or an HTTP error, in which case they are kept |
| LegacySession.LegacySessionManager.StoreLogin | token_manager.py:178-243 | a transport error or an HTTP error keeps every field; any other reply's tokens replace the held ones; only a reply with both tokens sets the expiry, the login instant and the cache file, and True is returned exactly then |
| RateLimiter.Refilled | src/core/rate_limiter.py:27-29 | the refill never lowers the tokens and never passes the capacity: it is either the capacity or the old tokens plus the non-negative elapsed time times the rate |
| RateLimiter.Step | src/core/rate_limiter.py:26-37 | one pass of the loop keeps 0 ≤ tokens ≤ capacity and stamps the instant; it grants (wait 0) iff the refilled tokens cover the request, deducting exactly the request, and otherwise leaves the refilled tokens and waits the missing tokens divided by the rate |
| RateLimiter.AcquireKeepsBounds | src/core/rate_limiter.py:19-39 | `acquire` keeps the tokens within [0, capacity], never grants before the call, changes nothing when the rate is ≤ 0, and a request the refill covers is granted at once with exactly the clamped request deducted |
| RateLimiter.SecondPassGrants | src/core/rate_limiter.py:32-39 | after sleeping the computed wait, the next pass always grants and leaves the bucket empty |
| RateLimiter.AboveCapacityNeverGranted | src/core/rate_limiter.py:25-39 | a request above the capacity is never granted by any pass, so the loop never ends |
| RateLimiter.TokenBucket.constructor | src/core/rate_limiter.py:12-17 | the capacity is max(1, capacity) and the bucket starts full, stamped with the current instant |
| RateLimiter.TokenBucket.AcquireAt | src/core/rate_limiter.py:19-39 | the method's new fields and grant instant are those of `Acquire` on the old fields, and the bucket invariant is kept |
| ConfigValidator.BlankOnes | src/core/config_validator.py:44-48 | the reported variables are exactly those of the list that are unset, empty or whitespace only, in order |
| ConfigValidator.CollectBlank | src/core/config_validator.py:42-48 | the loop collects exactly `BlankOnes` of the list |
| ConfigValidator.ValidateConfiguration | src/core/config_validator.py:15-75 | True iff none of the 7 required variables is blank; the optional ones are reported only once the required ones pass and never change the verdict |
| ConfigValidator.OnlyRequiredVarsDecide | src/core/config_validator.py:62-75 | setting a variable outside the checked list, to any value, leaves the blank report of that list unchanged |
| ConfigValidator.PyInt | src/core/config_validator.py:93-94 | `int()` succeeds only on text that is not blank after stripping |
| ConfigValidator.Numeral | src/core/config_validator.py:94 | `int()` on stripped text succeeds only on non-empty text |
| ConfigValidator.DigitsValueAgrees | src/core/config_validator.py:94 | on plain digits the value read for the port is the one the database layer's `int()` reads |
| ConfigValidator.DecimalDigitsPlain | src/core/config_validator.py:94 | without underscores, the numerals `int()` accepts are exactly the non-empty digit strings |
| ConfigValidator.PyIntAgrees | src/core/config_validator.py:94 | on every text without underscores the port's `int()` and the database layer's `int()` give the same answer |
| ConfigValidator.NumeralSigned | src/core/config_validator.py:94 | a signed numeral without underscores reads as the sign applied to its ASCII digits, and is refused when no digit follows the sign or a non-digit does |
| ConfigValidator.NumeralUnsigned | src/core/config_validator.py:94 | an unsigned numeral without underscores reads as the value of its ASCII digits, and is refused when empty or holding a non-digit |
| ConfigValidator.PyIntOfString | src/core/config_validator.py:94 | `int(str(n)) == n` for every integer n |
| ConfigValidator.PortOkOfNumeral | src/core/config_validator.py:93-97 | the decimal rendering of an integer passes the port check iff the integer is between 1 and 65535 |
| ConfigValidator.StripPadded | src/core/config_validator.py:94 | stripping removes exactly the white space around any text that neither starts nor ends with white space |
| ConfigValidator.PaddingIgnored | src/core/config_validator.py:94 | white space around any numeral does not change what `int()` reads |
| ConfigValidator.NumeralPlus | src/core/config_validator.py:94 | a '+' before a stripped numeral does not change its value, the value of its digits |
| ConfigValidator.PlusIgnored | src/core/config_validator.py:94 | for every numeral, `int()` reads it with a leading '+' as without, and as its digits' value |
| ConfigValidator.ValidatePostgres | src/core/config_validator.py:84-102 | True iff all five variables are set to non-empty values and the port is an integer in 1..65535 |
| ConfigValidator.ValidSiscomex | src/core/config_validator.py:111-127 | True iff both credentials are set and each has at least 10 characters |
| ConfigValidator.PortExamples | src/core/config_validator.py:93-100 | `int()` reads "5432" as 5432 |
| ConfigValidator.StripSpacedPort | src/core/config_validator.py:93-100 | stripping " +5432 " leaves "+5432" |
| ConfigValidator.SpacedPort | src/core/config_validator.py:93-100 | a port written with surrounding spaces and a plus sign is accepted |
| ConfigValidator.ZeroPortRejected | src/core/config_validator.py:93-100 | the port 0 is rejected |
| ConfigValidator.LargePortRejected | src/core/config_validator.py:93-100 | the port 65536 is rejected |
| ConfigValidator.TrailingUnderscoreRejected | src/core/config_validator.py:93-100 | the text "54_" is rejected as a port |
| ConfigValidator.UnderscorePort | src/core/config_validator.py:93-100 | a port with an underscore between digits ("5_432") is accepted, as `int()` accepts it |
| Metrics.Bump | src/core/metrics.py:45-47 | adds exactly the value to the named counter, a missing one counting as 0, and leaves every other counter alone |
| Metrics.CountersAfter | src/core/metrics.py:41-43 | recording adds one to "<name>_calls", one to "<name>_errors" only on failure, and touches no other counter |
| Metrics.Names | src/core/metrics.py:60-62 | the grouping's keys are the recorded function names, each once, in order of first appearance |
| Metrics.StatsOf | src/core/metrics.py:64-68 | each function's entry counts its calls and its failed calls |
| Metrics.CountsPartition | src/core/metrics.py:54-68 | over all function names the per-function calls add up to the number recorded and the errors to the number of failures |
| Metrics.SummaryTotals | src/core/metrics.py:49-74 | with no metrics the summary is {"total_calls": 0, "functions": {}}; otherwise total_calls = number recorded, total_errors = failures, and the per-function counts sum to those totals |
| Metrics.MetricsCollector.constructor | src/core/metrics.py:31-36 | the first construction of the shared collector starts with no metrics and no counters |
| Metrics.MetricsCollector.Record | src/core/metrics.py:38-43 | appends the metric and updates the counters as `CountersAfter` |
| Metrics.MetricsCollector.Increment | src/core/metrics.py:45-47 | the metrics are unchanged and the counters are `Bump` of the old ones |
| Metrics.MetricsCollector.GetSummary | src/core/metrics.py:49-74 | the returned summary is `SummaryOf` the recorded metrics |
| Metrics.GroupByName | src/core/metrics.py:54-62 | the grouping pass lists the function names in first-seen order, counts the failures, and holds for each name its calls and its failed calls |
| Metrics.StatsLines | src/core/metrics.py:64-72 | the row pass gives one row per name, in order, with that name's calls and errors |
| Metrics.MetricsCollector.Timed | src/core/metrics.py:77-107 | exactly one metric per call, failed iff the wrapped function raised an `Exception`, and the outcome (value or exception) is handed back unchanged |
| Metrics.Count | src/core/metrics.py:64-68 | a function's calls or failed calls never exceed the metrics recorded |
| Metrics.Failures | src/core/metrics.py:56 | the failures never exceed the metrics recorded |
| Metrics.CountAbsent | src/core/metrics.py:64-68 | a function never called has no calls and no errors |
| Refresh.Loaded | src/sync/update_dues.py:148-165 | the candidate query returns only table rows that pass its filter, every such row, and never more rows than the table holds |
| Refresh.LoadedNeverCancelled | src/sync/update_dues.py:148-165 | no loaded row has a cancelled or NULL status; in the incremental mode none was synchronised in the last 24 hours; in the forced mode every non-cancelled row is loaded |
| Refresh.OfKind | src/sync/update_dues.py:169-186 | a bucket is never longer than the rows it is drawn from |
| Refresh.EachRowOnce | src/sync/update_dues.py:169-186 | the three buckets add up to the loaded rows, every row lands in the bucket of its kind, and a bucket holds only candidates of rows of its kind |
| Refresh.ClassifiesThreeRows | tests/test_sync_atualizar.py:32-52 | the three rows of the test (settled now, settled more than seven days ago, in cargo) land one in each bucket, with no orphans |
| Refresh.ClassifyThree | tests/test_sync_atualizar.py:32-52 | three eligible rows, one settled within seven days, one settled earlier and one pending, land one in each bucket, in that bucket as the only candidate |
| Refresh.Partition | src/sync/update_dues.py:169-186 | the classifying loop fills each bucket with exactly the candidates of its kind, in order |
| Refresh.CapOf | src/sync/update_dues.py:206 | a missing or zero limit means 500, any other limit is taken as given |
| Refresh.CapMeaning | src/sync/update_dues.py:206-240 | the cap keeps the priority order (orphans, pending, recent, old; a lower list keeps anything only when the higher ones are whole), changes nothing when the run fits, and otherwise keeps exactly the cap |
| Refresh.ApplyCap | src/sync/update_dues.py:218-240 | the list reassignments compute the priority cap |
| Refresh.LoadCandidates | src/sync/update_dues.py:117-248 | the loader gives None when the database cannot be reached, and otherwise the capped classification of the loaded rows and orphans |
| Refresh.FetchSupplement | src/sync/update_dues.py:74-113 | a supplementary query propagates a rate limit and nothing else; its data is the body of a 200 reply and None otherwise |
| Refresh.AdditionalData | src/sync/update_dues.py:328-366 | the supplementary data is missing exactly when a flagged suspension, exemption or fiscal-requirement query hits the rate limit; otherwise each list is the 200 body of its query when flagged and None when not |
| Refresh.UnflaggedNotConsulted | src/sync/update_dues.py:341-366 | a query whose flag is off is never made: whatever it would answer changes nothing |
| Refresh.ChangeCheckMeaning | src/sync/update_dues.py:252-324 | a DUE is unchanged iff a 200 dict reply that is not the rate-limit body carries a parsable date no later than a known stored date; a changed DUE carries the 200 reply as payload; every non-200 status gives no verdict, and a rate limit (raised, 429 or in the body) ends as an unexpected error |
| Refresh.EarlierRemoteDateUnchanged | tests/test_sync_atualizar.py:14-29 | the test's reply, whose date is a day before the stored one, counts as unchanged |
| Refresh.ChangedWhenInDoubt | src/sync/update_dues.py:293-317 | a missing remote date, an unparsable one and a missing stored date all count as changed, with the reply as payload |
| Refresh.Process | src/processors/due.py:77-87 | a payload that is not a dict, or has no truthy `numero`, is rejected without normalising |
| Refresh.OldVerdictNeverRateLimits | src/sync/update_dues.py:446-495 | a DUE settled long ago is unchanged iff its check says so, and an error iff the check failed or a truthy change could not be completed by the supplementary queries or the normaliser; no rate limit leaves the worker |
| Refresh.EmptyRun | src/sync/update_dues.py:512-536 | the consolidated dict starts with an empty list for every one of the 23 tables |
| Refresh.TallyAllMeaning | src/sync/update_dues.py:571-614 | every result moves exactly one of the three counters; the counters are the numbers of changed, unchanged and failed results; the unchanged DUEs are listed in completion order; one error entry per failure; the consolidated lists collect the changed results' tables |
| Refresh.Workers | src/sync/update_dues.py:559 | the pool size is the minimum of the requested workers, 5 and the number of DUEs |
| Refresh.TallyOldDues | src/sync/update_dues.py:499-614 | the loop over the completed futures computes the tally of all results in completion order and the pool size |
| Refresh.Phase2Covers | src/sync/update_dues.py:563-614 | when the pool completes each long-settled DUE once, the changed, unchanged and error counters add up to the number of such DUEs, and the DUEs found unchanged are among them |
| Refresh.DownloadMeaning | src/sync/update_dues.py:369-408 | a pending download stops with a rate limit iff the detail query found the DUE and a flagged supplementary query hit the limit; an expired token in the detail query yields no tables |
| Refresh.FirstLimit | src/sync/update_dues.py:743-778 | the index of the first rate-limited download: every earlier download succeeded, and the one there is rate-limited unless the order has none |
| Refresh.Phase1Meaning | src/sync/update_dues.py:743-823 | phase 1 counts each DUE before the first rate limit exactly once, is flagged rate-limited iff there is one, and is unaffected by every download after it |
| Refresh.RateLimitStopsPhase1 | src/sync/update_dues.py:772-778 | a rate limit at position k stops phase 1 there: the run is flagged and at most k DUEs are counted |
| Refresh.RequestNeverStopsPhase1 | src/sync/update_dues.py:772-778 | when every supplementary query goes through `request`, which never raises RateLimitError, no download is rate limited: phase 1 never breaks, counts every DUE, and the run never ends stopped by a rate limit |
| Refresh.Phase1Covers | src/sync/update_dues.py:735-823 | when the pool completes each submitted DUE once, phase 1 counts at most as many DUEs as were submitted, and all of them when no rate limit stops it; when the three buckets share no DUE, each bucket's counters then add up to its own size |
| Refresh.RefreshPending | src/sync/update_dues.py:728-827 | the phase-1 loop with its break computes the phase-1 fold over the completion order |
| Refresh.PartialSaveReportsNothing | src/sync/update_dues.py:411-442 | the partial save writes iff there is a due_principal row and, because its caller unpacks a None result, always reports 0 DUEs saved |
| Refresh.PartialSave | src/sync/update_dues.py:411-442 | the intended partial save writes iff there is a due_principal row and reports the due_principal rows written when the write succeeds |
| Refresh.PartialSaveUndercounts | src/sync/update_dues.py:425-442 | with one DUE downloaded the save as written writes it and reports 0, where the intended one reports 1 |
| Refresh.MakeReport | src/sync/update_dues.py:909-918 | the saved requests are three per DUE found unchanged |
| Refresh.RefreshRunMeaning | src/sync/update_dues.py:618-884 | nothing is contacted without a candidate; authentication comes first; a phase-1 rate limit leaves only partial writes; the last-sync update happens only in a finished run and lists exactly the unchanged DUEs; the normal save happens iff some DUE was updated; savings are three requests per ignored DUE |
| Refresh.RefreshCovers | src/sync/update_dues.py:618-884 | when both pools complete each submitted DUE once, a run that finishes reports each orphan, pending and recently settled bucket in full (if they share no DUE) and a verdict for every long-settled DUE |
| Refresh.RefreshDues | src/sync/update_dues.py:641-884 | the imperative run computes the phase control's actions, ending and report |
| Refresh.ListIn | src/processors/due.py:574-575 | a supplementary body is read as its items exactly when it is a list |
| Refresh.ProcessRaises | src/processors/due.py:574-593 | a dict payload with a truthy number, whose supplements hold one fiscal requirement, makes the normaliser as written raise KeyError |
| Refresh.FiscalRequirementFailsAsWritten | src/sync/update_dues.py:396-408 | with the normaliser as written, a pending DUE found by the detail query whose fiscal-requirement query answers one requirement downloads no tables |
| Refresh.SettledFiscalRequirementFailsAsWritten | src/sync/update_dues.py:478-486 | with the normaliser as written, a changed DUE settled long ago whose fiscal-requirement query answers one requirement ends as a processing error |
| LegacyRefresh.LegacyLoadCandidates | sync_atualizar.py:77-179 | the older loader gives None when the database cannot be reached, and otherwise its own cap of the classification of the loaded rows, with no orphans |
| LegacyRefresh.LegacyCapMeaning | sync_atualizar.py:147-171 | the older cap keeps the priority order (pending, recent, old), changes nothing when the run fits, and for a non-negative cap keeps at most, and when over-full exactly, `cap` DUEs |
| LegacyRefresh.LegacyCapAgrees | sync_atualizar.py:158-171 | without orphans and with a non-negative cap the older and newer caps keep the same DUEs |
| LegacyRefresh.NegativeLimitDiffers | sync_atualizar.py:158-163 | with a limit of -1 the older cap drops only the last pending DUE, where the newer one keeps nothing |
| LegacyRefresh.ChecksAgree | sync_atualizar.py:182-241 | away from rate limits the older change check gives the same verdict as the newer one |
| LegacyRefresh.LegacyIgnoresRateLimits | sync_atualizar.py:197-213 | for a 429 reply that reaches it (the retry adapter is not modelled), the older check treats it as a plain HTTP error, and a rate-limit body without a date as a change, where the newer one reports an unexpected error |
| LegacyRefresh.SupplementsAgree | sync_atualizar.py:244-277 | with no rate limit raised the three always-made queries give what the newer ones give with every flag on |
| LegacyRefresh.LegacySupplementsIgnoreFlags | sync_atualizar.py:244-277 | each supplementary list is present only for a 200 reply, and then it is that reply's body |
| LegacyRefresh.LegacyOldVerdictMeaning | sync_atualizar.py:280-336 | a DUE settled long ago is unchanged iff the check says so, an error iff the check failed (with its reason) or the normaliser raised on a truthy change |
| LegacyRefresh.LegacyDownload | sync_atualizar.py:569-593 | a pending DUE whose detail query gave nothing yields no tables |
| LegacyRefresh.LegacyPhase1Meaning | sync_atualizar.py:559-595 | the sequential phase 1 dies iff the normaliser raises on some DUE, and otherwise counts every DUE exactly once and never stops on a rate limit |
| LegacyRefresh.LegacyRefreshPending | sync_atualizar.py:559-595 | the loop over pending then recently settled DUEs computes the phase-1 fold |
| LegacyRefresh.LegacyRunMeaning | sync_atualizar.py:459-661 | nothing is contacted without a candidate; authentication comes first; a phase-1 exception leaves only the authentication; the last-sync update happens only in a finished run and lists exactly the unchanged DUEs; the save happens iff some DUE was updated; savings are three requests per unchanged DUE |
| LegacyRefresh.LegacyRefreshCovers | sync_atualizar.py:405-440 | when the pool completes each long-settled DUE once, a run that finishes counts every pending and recently settled DUE in phase 1 and gives a verdict for every long-settled DUE |
| LegacyRefresh.LegacyRefreshDues | sync_atualizar.py:480-631 | the imperative run computes the older script's actions, ending and report |
| Discovery.Unlinked | src/sync/new_dues.py:357 | the keys to query are exactly the loaded keys without an existing link, never more than were loaded |
| Discovery.QueriedMeaning | src/sync/new_dues.py:393-411 | the keys queried are a prefix of the unlinked keys: all of them without a limit, the first `limit` with one; the keys queried and the keys left add up to the unlinked keys |
| Discovery.LinkOf | src/sync/new_dues.py:400-406 | a key is linked only when its lookup found a DUE with a non-empty number, and then to that number |
| Discovery.LinksMeaning | src/sync/new_dues.py:414-423 | the new link map holds exactly the queried keys whose lookup found a numbered DUE, each mapped to that number |
| Discovery.DuesAreLinked | src/sync/new_dues.py:419-421 | the DUEs to download are exactly the numbers some queried key is linked to |
| Discovery.NotFoundMeaning | src/sync/new_dues.py:419-423 | the not-found count is 0 iff every queried key was linked, and the number of keys iff none was |
| Discovery.SharedDueDownloadedOnce | src/sync/new_dues.py:419-421 | two keys found for the same DUE give it once in the download set |
| Discovery.CollectLinks | src/sync/new_dues.py:408-423 | the lookup loop computes the link map, the DUE set and the not-found count |
| Discovery.SaveLinksMeaning | src/sync/new_dues.py:164-212 | an empty map makes no attempt; a save succeeds at the first of at most three attempts whose insert reports rows; a failure of the third attempt raises; an insert without rows on the third attempt ends silently; at most 4 seconds are slept |
| Discovery.SaveNewLinks | src/sync/new_dues.py:187-212 | the retry loop computes the save's outcome and the seconds slept between attempts |
| Discovery.DownloadNewMeaning | src/sync/new_dues.py:246-281 | with the default flags the exemption query is never made; a rate limit escapes iff the DUE was found and a suspension or fiscal-requirement query hit it; a DUE not found gives None |
| Discovery.FetchMeaning | src/sync/new_dues.py:482-537 | every download before the first rate limit moves exactly one of the ok and error counters, the loop is flagged iff a rate limit occurs, and the ok counter never drops |
| Discovery.RequestNeverStopsDownloads | src/sync/new_dues.py:500-506 | when every supplementary query goes through `request`, which never raises RateLimitError, the download loop never breaks: every DUE counts as ok or failed, no partial save happens, and the DUEs reported saved are the ok ones |
| Discovery.DiscoveryCovers | src/sync/new_dues.py:474-537 | when the download pool completes each DUE found once, a run that finishes without a rate limit reports every DUE found as saved or failed, exactly once |
| Discovery.DownloadDues | src/sync/new_dues.py:468-541 | the download loop with its break computes the fold over the completion order |
| Discovery.DownloadStep | src/sync/new_dues.py:432-564 | with no DUE to download nothing happens and 0 are reported; otherwise the downloads are announced, the loop result is the fold over the completion order, and the partial save (after a rate limit) or the normal save (when some DUE downloaded) is the only write |
| Discovery.WritesMeaning | src/sync/new_dues.py:544-564 | after a rate limit only the partial save writes (iff a due_principal row exists) and 0 DUEs are reported; otherwise the save happens iff some DUE downloaded and the ok count is reported |
| Discovery.DiscoveryRunQuiet | src/sync/new_dues.py:317-431 | nothing is contacted when every key is linked; authentication comes first; the run finishes iff there are unlinked keys, credentials, a successful login and no failed link save |
| Discovery.LinksBeforeDownloads | src/sync/new_dues.py:429-434 | the new links are written before any download starts, and a failed link save ends the run before any download |
| Discovery.AfterLoginSummary | src/sync/new_dues.py:544-611 | after a rate limit nothing is saved normally and 0 DUEs are reported saved; the summary's keys queried and keys left add up to the unlinked keys and it counts the new links |
| Discovery.LinkAndDownload | src/sync/new_dues.py:388-564 | the steps after login compute the run the model defines |
| Discovery.DiscoverNew | src/sync/new_dues.py:317-564 | the imperative run computes the discovery run's actions, ending and summary |
| Discovery.FiscalRequirementFailsAsWritten | src/sync/new_dues.py:268-279 | with the normaliser as written, a found DUE whose fiscal-requirement query answers one requirement is a download error: no rows are added and the error counter is 1 |
| LegacyDiscovery.KeyCells | sync_novas.py:75-76 | the export filter keeps exactly the non-empty cells of at least 44 characters, never more than there are cells |
| LegacyDiscovery.CsvKeysMeaning | sync_novas.py:62-84 | an absent, unreadable or keyless export gives no keys; otherwise the keys are exactly the cells of at least 44 characters, each once |
| LegacyDiscovery.CsvKeysAreKeys | sync_novas.py:75-77 | every key this script reads from the export is also a key for the newer reader |
| LegacyDiscovery.ShortKeyOnlyInNewerFilter | sync_novas.py:76 | a 41-character cell is a key for the newer reader and not for this script |
| LegacyDiscovery.LoadInvoiceKeys | sync_novas.py:46-84 | a non-empty key list from the database wins; with no connection, a failing query or no keys the export is read |
| LegacyDiscovery.QueriedMeaning | sync_novas.py:260-265 | the keys queried are a prefix of the unlinked keys; a limit of at least their number queries all, a smaller non-negative one that many; queried and remaining add up for a non-negative limit, while a negative one reports more remaining keys than there are |
| LegacyDiscovery.ZeroLimitDiffers | sync_novas.py:260 | a zero limit queries nothing here, where the newer discovery queries every unlinked key |
| LegacyDiscovery.NumberOf | sync_novas.py:270 | a lookup links its key iff it is a dict with a truthy `numero`, and then to that value |
| LegacyDiscovery.Put | sync_novas.py:273 | assigning a key of an insertion-ordered dict adds the key, keeps keys distinct, grows the dict only for a new key, stores the value and leaves every other key's value alone |
| LegacyDiscovery.LinksMeaning | sync_novas.py:265-276 | each queried key appears at most once among the links, exactly when its lookup gave a number, and with that number |
| LegacyDiscovery.DuesAreLinked | sync_novas.py:272-274 | the DUEs to download are exactly the numbers some queried key is linked to |
| LegacyDiscovery.FoundMeaning | sync_novas.py:272-276 | there are links iff there are DUEs to download; the not-found count is the number of keys iff there are no links, and 0 iff every key was linked |
| LegacyDiscovery.CollectLinks | sync_novas.py:265-278 | the lookup loop computes the links, the DUE set and the not-found count |
| LegacyDiscovery.SaveLinksMeaning | sync_novas.py:107-153 | no links write nothing; the database is used iff the insert reports a positive count; otherwise the CSV holds every existing row ahead of the new ones, or nothing is stored when that write fails |
| LegacyDiscovery.LegacyFetchMeaning | sync_novas.py:321-344 | the download loop dies iff the normaliser raises on some DUE; otherwise every DUE moves exactly one counter, there is no rate limit, the table keys stay and the success count grows iff some DUE yields tables |
| LegacyDiscovery.LegacyDownloadDues | sync_novas.py:321-344 | the loop computes the download fold over the DUEs in the order the set yields them |
| LegacyDiscovery.LegacyCovers | sync_novas.py:272-344 | when the order covers the set of DUEs found, each once, a run that finishes counts every DUE found as downloaded or failed, exactly once |
| LegacyDiscovery.AfterLoginMeaning | sync_novas.py:257-352 | after login the links are stored (iff there are any) before anything is saved; a crash saves no tables; the tables are saved iff the run finished with a DUE that downloaded; the summary counts the new links |
| LegacyDiscovery.LegacyRunQuiet | sync_novas.py:192-254 | the run ends for no keys iff none were loaded, for all linked iff every key has a link; a run stopped before the lookups writes at most the login; a finished summary counts every loaded key |
| LegacyDiscovery.LegacyAfterLogin | sync_novas.py:257-352 | the imperative steps after login compute the run the model defines |
| LegacyDiscovery.LegacyDiscoverNew | sync_novas.py:192-368 | the imperative script computes the legacy discovery run |
| DueNormalizer.AllTablesListed | src/processors/due.py:110-132 | the normaliser's tables are exactly the 23 listed ones |
| DueNormalizer.Stamp | src/processors/due.py:190-200 | a list yields exactly one row per element |
| DueNormalizer.StampAt | src/processors/due.py:190-200 | the row for the i-th element copies that element, carries the parent columns, and the i-th index when the source enumerates the list |
| DueNormalizer.TratamentoRows | src/processors/due.py:267-280 | an item yields one treatment row per treatment |
| DueNormalizer.TratamentoAt | src/processors/due.py:267-280 | the k-th treatment row has the k-th treatment's own id and links to its item |
| DueNormalizer.Normalized | src/processors/due.py:77-599 | the intended normaliser gives tables iff the payload is a dict with a number, and then a list for every one of the 23 tables |
| DueNormalizer.NormalizedAsWritten | src/processors/due.py:77-599 | the normaliser as written rejects exactly the invalid payloads and, when it gets through, returns only the 21 initialised keys |
| DueNormalizer.AsWrittenAgreesWithoutExtras | src/processors/due.py:110-132 | without exemption acts or fiscal requirements the code as written agrees with the intended tables on their 21 keys |
| DueNormalizer.OneExigenciaRaises | src/processors/due.py:574-593 | a single fiscal requirement makes the code as written raise KeyError |
| DueNormalizer.ExtrasBecomeRows | src/processors/due.py:549-593 | in the intended normaliser every exemption act and fiscal requirement becomes one row of its table, in order |
| DueNormalizer.NormalizedEntry | src/processors/due.py:134-599 | each table's list is the rows obtained by walking the payload for that table |
| DueNormalizer.EmitEach | src/processors/due.py:190-200 | the append loop over a list adds exactly its stamped rows |
| DueNormalizer.EmitTratamentos | src/processors/due.py:267-290 | the treatment loop appends each treatment's row and, after it, its agency rows |
| DueNormalizer.EmitItem | src/processors/due.py:203-451 | the loop body for one item appends exactly that item's contribution to each item table |
| DueNormalizer.EmitItems | src/processors/due.py:203-451 | the item loop fills each item table with the rows of all items in order and leaves the other tables alone |
| DueNormalizer.EmitDeclaration | src/processors/due.py:453-520 | cargo situations, requests and the tax declaration's lists are appended to their tables and nothing else changes |
| DueNormalizer.EmitExtras | src/processors/due.py:524-593 | the extra lists are appended only when given as lists, and only to their three tables |
| DueNormalizer.EmitDue | src/processors/due.py:134-200 | every list starts empty except the DUE's own row and its event history |
| DueNormalizer.Assembled | src/processors/due.py:134-599 | the four stages, each as its emitter states it, compose to the normalised tables |
| DueNormalizer.Normalize | src/processors/due.py:77-599 | the imperative walk computes the intended normalised tables |
| DueNormalizerProperties.PerItemMember | src/processors/due.py:203-451 | a row of an item table comes from one of the items |
| DueNormalizerProperties.PerItemContains | src/processors/due.py:203-451 | every row an item contributes is in its table |
| DueNormalizerProperties.DueLevelMember | src/processors/due.py:453-593 | a row of a DUE-level table belongs to the DUE and links to no item or treatment |
| DueNormalizerProperties.OrgaoTreatmentBelow | src/processors/due.py:283-290 | an agency row carries the id of one of its item's treatments |
| DueNormalizerProperties.PerItemOrgaosLinked | src/processors/due.py:267-290 | every agency row has a treatment row in the treatment table |
| DueNormalizerProperties.StampMember | src/processors/due.py:190-200 | every stamped row carries the DUE number and the given parent columns |
| DueNormalizerProperties.TratamentoMember | src/processors/due.py:267-280 | a treatment row links to its item and has the id of one of the item's treatments |
| DueNormalizerProperties.OrgaoMember | src/processors/due.py:283-290 | an agency row links to its item and to one of the item's treatments |
| DueNormalizerProperties.ContributionMember | src/processors/due.py:203-451 | a row an item contributes belongs to the DUE; the item row has the item's id and every other row links to it |
| DueNormalizerProperties.ItemRowPerItem | src/processors/due.py:203-240 | the item table holds one row per item, with that item's id, in order |
| DueNormalizerProperties.RowsBelongToDue | src/processors/due.py:134-599 | every row of every table carries the DUE's number, and DUE-level rows link to no item or treatment |
| DueNormalizerProperties.OneRowPerItem | src/processors/due.py:203-240 | the normalised item list has exactly one row per payload item, with that item's id, in order |
| DueNormalizerProperties.ItemListsReferenceItems | src/processors/due.py:242-451 | every row of an item's lists points at a row of the item list |
| DueNormalizerProperties.OrgaosReferenceTratamentos | src/processors/due.py:266-290 | every agency row points at a treatment row of the same item |
| DueLookup.FirstOccurrences | src/processors/due.py:48 | the unique keys in order of first appearance: distinct, each key of the list not already seen, no more than the list holds |
| DueLookup.LongCells | src/processors/due.py:46-47 | the filtered cells are exactly the non-empty cells longer than 40 characters, in file order |
| DueLookup.NfKeysMeaning | src/processors/due.py:31-55 | an absent file, a missing key column or a read error gives no keys; otherwise the keys are exactly the cells longer than 40 characters, each once |
| DueLookup.FullLookupMeaning | src/processors/due.py:601-663 | the detail search finds nothing iff no URL gives a decisive reply; otherwise it stops at the first decisive reply, which is an expiry iff its status is 401 and otherwise supplies the data |
| DueLookup.ConsultFull | src/processors/due.py:614-658 | the URL loop computes the detail search, sending one request per URL tried and stopping right after the first decisive reply |
| DueLookup.ThirdQueryNeeded | src/processors/due.py:767-774 | the third query is needed iff the payload is empty or has no items while not simplified; a payload whose `itens` has no length makes the source raise |
| DueLookup.ExpiredOnlyFromUnauthorised | src/processors/due.py:685-725 | both lookups by invoice key report an expired token only after a 401 on the link query or on the details query |
| DueLookup.FoundByNf | src/processors/due.py:683-825 | a found DUE comes from a successful link query with a first link object; its row carries the invoice key, that link's DUE number and the normalised tables of its payload |
| DueLookup.SecondReplySuffices | src/processors/due.py:767-787 | when the details reply has items or is a simplified DUE the third query's replies play no part |
| DueLookup.ThirdQueryExpiryBecomesPayload | src/processors/due.py:776-787 | as written, an expired token on the third query leaves its error marker dict as the DUE's payload |
| DueLookup.CorrectedPayloadIsAReply | src/processors/due.py:776-787 | with the corrected third step the payload of a found DUE is the details reply or a dict the detail search returned |
| DueLookup.FoundByNumber | src/processors/due.py:837-955 | the direct lookup finds a DUE iff the reply passes the status checks with a non-empty JSON object, keeps the key and number given and that payload, fetches acts only for a known number with a 200 reply, and reports expiry iff the status is 401 |
| DueCache.GatherKeepsDistinct | src/processors/due.py:1226-1232 | one result of the parallel pass never normalises a DUE a second time |
| DueCache.RetryByNfMeaning | src/processors/due.py:1266-1279 | a DUE the second pass finds by invoice key is filed under that key, with a payload that the details query or the third query returned as a JSON object |
| DueCache.KnownNumberSkipsDiscovery | src/processors/due.py:965-1019 | a DUE number already known for the key spares the link query: its reply changes nothing |
| DueCache.KnownDueReused | src/processors/due.py:1029-1041 | a DUE already fetched for another key is reused with the invoice key replaced and filed under the new key, with no request |
| DueCache.KeyStepKeepsCaches | src/processors/due.py:957-1070 | a key's lookup keeps the three caches coherent, never drops or overwrites an entry, and files a found row under its own key |
| DueCache.NumberCached | src/processors/due.py:957-1070 | remembering a non-empty DUE number for a key keeps the caches coherent and drops no key-to-number entry |
| DueCache.BasicFiled | src/processors/due.py:957-1070 | filing a row under its own key, and under its own DUE number for a direct find, keeps the caches coherent and overwrites nothing |
| DueCache.KeyCaches.constructor | src/processors/due.py:1123-1125 | the caches start with the file cache and two empty maps |
| DueCache.KeyCaches.ProcessKey | src/processors/due.py:957-1070 | one key's lookup updates the shared caches in place exactly as the key step does, keeping them coherent |
| DueCache.EmptyConsolidated | src/processors/due.py:1150-1172 | the consolidated dict starts with an empty list for each of the 21 tables the normaliser creates, and nothing else |
| DueCache.Extend | src/processors/due.py:1228-1229 | extending keeps the table keys and appends to each list the rows of the same table |
| DueCache.FirstTabledDistinct | src/processors/due.py:1226-1232 | the contributions kept are for distinct DUEs not yet normalised, and cover every such tabled DUE |
| DueCache.GatherAllConsolidates | src/processors/due.py:1206-1249 | the parallel pass adds exactly the first tabled result of each DUE not already normalised, in completion order |
| DueCache.GatherAllCounts | src/processors/due.py:1206-1249 | the pass counts one success per basic row kept, keeps at most one row or expired key per result, and keeps the table keys |
| DueCache.ConsolidatedOnce | src/processors/due.py:1149-1249 | from the empty start, each DUE's rows are consolidated exactly once, from its first tabled result, and the normalised DUEs are exactly the tabled ones |
| DueCache.RetryDuplicatesRows | src/processors/due.py:1266-1279 | a DUE whose rows another key already consolidated gets them twice from the as-written second pass and once from the corrected one |
| DueCache.RetryAsWrittenMeaning | src/processors/due.py:1262-1279 | the second pass as written extends the lists by every found result's tables in key order, marks no DUE as normalised, leaves the expired keys alone and counts one success per basic row it keeps |
| DueCache.ExtendAllAppend | src/processors/due.py:1228-1229 | extending by two runs of contributions is extending by the first run, then by the second |
| DueCache.RetryKeepsOnce | src/processors/due.py:1266-1279 | the corrected second pass keeps every DUE normalised at most once |
| DueCache.ConsolidationOnce | src/processors/due.py:1226-1232 | corrected, as the first pass's `dues_normalizadas` check intends: over both passes of `CorrectedConsolidation` every DUE is normalised at most once |
| DueCache.ConsolidationRows | src/processors/due.py:1134-1279 | as written: the lists hold the first tabled result of each DUE of the parallel pass, followed by the tables of every result the second pass finds, already consolidated or not; only the parallel pass marks DUEs as normalised |
| DueCache.Consolidate | src/processors/due.py:1134-1308 | the two loops over the results, as written, compute `Consolidation` |
| CsvMerge.UnmatchedAppend | src/processors/due.py:1457 | the stored rows kept from two parts are those kept from each part, in order |
| CsvMerge.UnmatchedUnique | src/processors/due.py:1457 | dropping the matched rows keeps the remaining keys unique |
| CsvMerge.PrimaryKey | src/processors/due.py:1413-1451 | every table has a non-empty key, `numero_due` for a table without an entry |
| CsvMerge.ValidKeys | src/processors/due.py:1452 | the valid key columns are exactly those of the key that both frames have, in key order |
| CsvMerge.KeyOf | src/processors/due.py:1455-1456 | a row's composite key has one cell per key column, that column's cell |
| CsvMerge.Unmatched | src/processors/due.py:1457 | the stored rows kept are never more than the stored rows |
| CsvMerge.UnmatchedMembers | src/processors/due.py:1457 | the stored rows kept are exactly those whose key no new row has |
| CsvMerge.Merge | src/processors/due.py:1437-1471 | a table without new rows is left alone; otherwise the file ends with the new rows; without an incremental stored file it is just the new rows; with one, the rows before them are exactly the stored rows whose key no new row shares (all of them when no key column is valid) |
| CsvMerge.MergeKeyed | src/processors/due.py:1454-1460 | with every key column in both frames the file is the unmatched stored rows followed by the new ones |
| CsvMerge.MergeIdempotent | src/processors/due.py:1437-1471 | saving the same rows twice leaves the file as saving them once |
| CsvMerge.MergeKeepsKeysUnique | src/processors/due.py:1454-1460 | when stored and new rows each have unique keys, so does the saved file |
| CsvMerge.SaveAll | src/processors/due.py:1437-1471 | the save creates a file for each table with new rows and leaves every other file untouched |
| CsvMerge.SaveAllWrites | src/processors/due.py:1437-1471 | each table with new rows ends up holding the merge of those rows into the file it had before the save |
| DbValues.LeadingSpace | src/database/manager.py:623 | the count of leading characters is exactly the white space the string starts with |
| DbValues.TrailingSpace | src/database/manager.py:623 | the position returned starts exactly the white space the string ends with |
| DbValues.Strip | src/database/manager.py:623 | the stripped string is the infix left after the leading white space, everything around it is white space, it neither starts nor ends with white space, and it is empty exactly when the input is all white space |
| DbValues.StripUnchanged | src/database/manager.py:623 | a string without surrounding white space is its own strip |
| DbValues.Lower | src/database/manager.py:624 | lower-casing keeps the length and maps every character on its own |
| DbValues.Clean | src/database/manager.py:618-630 | a non-string is returned as it is; a string becomes None exactly when it is blank or spells "null" in any case, and is otherwise returned stripped |
| DbValues.CleanIgnoresKind | src/database/manager.py:618-630 | the expected column kind never changes what the cleaning returns |
| DbValues.CleanIdempotent | src/database/manager.py:618-630 | cleaning a cleaned value returns it unchanged |
| DbValues.PyOr | src/database/manager.py:781 | a chain of `or` yields either its last operand or a truthy operand of the chain, is truthy when any operand is, and is the first truthy operand when there is one |
| DbValues.ParseInt | src/database/manager.py:899 | a string converts exactly when, once its white space is stripped, it is an optional sign followed by decimal digits, and it then converts to those digits' value with the sign applied |
| DbValues.DigitsOfNat | src/database/manager.py:899 | the decimal rendering of a natural number consists of digits that spell that number |
| DbValues.ParseIntOfDigits | src/database/manager.py:899-903 | a plain decimal numeral converts to the number it spells, and with a leading minus to its negation |
| DbValues.ParseIntOfString | src/database/manager.py:899-903 | converting the decimal rendering of any integer back gives that integer |
| DbValues.ItemNumberChain | src/database/manager.py:781-784 | an item's number is the first truthy of numeroItem, numero_item and numero, and 0 when none is |
| DbValues.NfItemNumberCases | src/database/manager.py:891-901 | an export-invoice item number is 0 when every number field is missing and the number itself when numeroItem is a non-zero number; when numeroItem is non-empty text it is that text's converted value if the text is a numeral, and 0 otherwise |
| DbValues.ItemIdsDistinct | src/database/manager.py:786-787 | two items of one DUE get the same id exactly when their item numbers have the same text |
| DbValues.ItemNumbersDistinct | src/database/manager.py:786-787 | two integer-numbered items of one DUE get the same id exactly when their numbers are equal |
| DbValues.TratamentoIdsDistinct | src/database/manager.py:848 | two tratamentos of the same item at different positions of a batch never get the same default id |
| Persistence.Upserted | src/database/manager.py:711-715 | after the upserts the table holds exactly its old keys and the keys of the batch |
| Persistence.UpsertedUntouched | src/database/manager.py:711-715 | a key that no row of the batch carries keeps its stored row, and no such key is added |
| Persistence.UpsertedLast | src/database/manager.py:711-715 | a key ends up holding the last row of the batch that carries it |
| Persistence.MappedRowColumns | src/database/manager.py:688-697 | a column is written exactly when some mapping pair maps a field present in the record to it |
| Persistence.MappedRowCell | src/database/manager.py:688-697 | a written column holds the cleaned value of the last field mapped to it |
| Persistence.PrincipalRow | src/database/manager.py:682-701 | the principal row always carries a non-null last-sync time, has exactly the mapped columns plus that one, and keeps every mapped cell other than a missing last-sync time |
| Persistence.UpsertPrincipalMeaning | src/database/manager.py:632-718 | the principal upsert fails exactly when the record has no numero; otherwise that DUE's row gets every written column and keeps its other columns, and every other DUE is untouched |
| Persistence.ItemRow | src/database/manager.py:781-790 | an item row's id joins the DUE number and the item number from the fallback chain, and its numero_item is that number |
| Persistence.TratamentoRow | src/database/manager.py:843-853 | a tratamento row keeps the record's own id when it has one and otherwise gets the default id of its position, and points at the item id of its DUE and item number |
| Persistence.NfRow | src/database/manager.py:891-906 | an export-invoice row's item number is always an integer, and its due_item_id joins the DUE number with it |
| Persistence.ItemRows | src/database/manager.py:777-790 | the batch has one item row per record, in order |
| Persistence.TratamentoRows | src/database/manager.py:838-853 | the batch has one tratamento row per record, in order, each numbered by its position |
| Persistence.NfRows | src/database/manager.py:887-906 | the batch has one export-invoice row per record, in order |
| Persistence.KeptMembers | src/database/manager.py:726-733 | the deletion keeps exactly the stored rows whose DUE is not in the batch |
| Persistence.RowsOfMembers | src/database/manager.py:726-733 | the rows of one DUE are exactly those carrying its number |
| Persistence.ReplacedPerDue | src/database/manager.py:944-957 | after delete-then-insert each DUE of the batch holds exactly its batch rows and every other DUE keeps exactly its stored rows |
| Persistence.EventRows | src/database/manager.py:735-750 | the batch has one history-event row per record, in order |
| Persistence.Blank | src/database/manager.py:1032-1033 | a cell becomes None exactly when it is None or a blank string, and is otherwise kept |
| Persistence.GenericRow | src/database/manager.py:1016-1033 | a generic row has exactly the chosen columns; a missing or blank cell becomes NULL and any other cell keeps its value |
| Persistence.GenericRows | src/database/manager.py:1016-1033 | the batch has one row per record, each with the columns of the first record without id |
| Persistence.AtoRows | src/database/manager.py:1113-1150 | the batch has one concession-act row per record |
| Persistence.ToNumber | src/database/manager.py:1135-1139 | a numeric act column always holds a number: an empty or false value becomes 0 and a non-zero number is kept |
| Persistence.AtoMappedCells | src/database/manager.py:1128-1141 | a concession-act row has a column exactly when some mapping entry's source field is in the record, and every numeric column present holds a number |
| Persistence.AtoRowsMeaning | src/database/manager.py:1128-1150 | every row of the batch has the columns of the first record; a column the record does not supply is NULL, a supplied one is its mapped value, and numeric columns hold numbers |
| Persistence.LinksUpserted | src/database/manager.py:293-322 | after the link upserts the table holds exactly its old invoice keys and those of the batch |
| Persistence.LinksUntouched | src/database/manager.py:293-322 | an invoice key no entry names keeps its link, and no such key is added |
| Persistence.LinksLast | src/database/manager.py:293-322 | each invoice key is linked to the DUE of the last entry naming it |
| Persistence.Touched | src/database/manager.py:1222-1231 | the last-sync update adds and removes no DUE |
| Persistence.TouchedMeaning | src/database/manager.py:1222-1231 | the update sets the update time on every stored DUE the lot names and leaves every other DUE as it was |
| Persistence.Lot | src/database/manager.py:1202-1209 | every lot is non-empty and at most 50 numbers long |
| Persistence.LotMeaning | src/database/manager.py:1202-1209 | each lot is the run of consecutive numbers at its offset, exactly 50 long unless it is the last |
| Persistence.MatchedBound | src/database/manager.py:1228-1231 | a lot counts at most as many updated rows as it names DUEs |
| Persistence.LotsFromBound | src/database/manager.py:1201-1261 | the rows counted never exceed the numbers passed, and no DUE is added or removed |
| Persistence.AllLotsTouch | src/database/manager.py:1208-1233 | when every lot succeeds each stored DUE named in the list is marked with the update time and every other DUE is untouched |
| Persistence.DatabaseManager.constructor | src/database/manager.py:35-42 | the manager starts with the given tables |
| Persistence.DatabaseManager.Restore | src/database/manager.py:612-616 | the tables are set back to the given state |
| Persistence.DatabaseManager.ExecuteQuery | src/database/manager.py:147-170 | the statement answers true exactly when it does not raise; the tables then take its effect when committing, and are otherwise unchanged |
| Persistence.DatabaseManager.UpsertPrincipalRecord | src/database/manager.py:632-718 | one principal record is upserted or the call fails, as the principal upsert says; no other table changes |
| Persistence.DatabaseManager.UpsertPrincipalRecords | src/database/manager.py:468-472 | the principal records are upserted in turn, the first failure stops them, and no other table changes |
| Persistence.DatabaseManager.InsertItems | src/database/manager.py:757-830 | the items table becomes the old one with the batch's item rows upserted by id; no other table changes |
| Persistence.DatabaseManager.InsertTratamentos | src/database/manager.py:832-871 | the batch is written exactly when no record carries a null id, then upserted by id; no other table changes |
| Persistence.DatabaseManager.InsertNfExportacao | src/database/manager.py:873-942 | the export-invoice table becomes the old one with the batch's rows upserted by due_item_id; no other table changes |
| Persistence.DatabaseManager.Refill | src/database/manager.py:944-957 | the table's rows of the batch's DUEs are replaced by the batch and nothing else changes |
| Persistence.DatabaseManager.InsertEvents | src/database/manager.py:720-755 | the history events of the batch's DUEs are replaced by the batch's event rows |
| Persistence.DatabaseManager.InsertGeneric | src/database/manager.py:944-1045 | the table's rows of the batch's DUEs are replaced by the batch's generic rows |
| Persistence.DatabaseManager.InsertAtos | src/database/manager.py:1097-1164 | the table's rows of the batch's DUEs are replaced by the batch's concession-act rows |
| Persistence.DatabaseManager.RefillGenericTables | src/database/manager.py:481-587 | each listed generic table that has rows has its rows of the batch's DUEs replaced, in list order; tables without rows are skipped |
| Persistence.DatabaseManager.RefillAtoTables | src/database/manager.py:589-601 | the suspension and exemption concession-act tables that have rows have their rows of the batch's DUEs replaced, in turn |
| Persistence.DatabaseManager.InsertBeforeTratamentos | src/database/manager.py:468-494 | the writes before the tratamentos succeed exactly when every principal record has a numero; then the principal records are upserted, the history events replaced, the items upserted and the classification and destination tables refilled |
| Persistence.DatabaseManager.InsertAfterPrincipal | src/database/manager.py:473-494 | after the principal rows, the history events are replaced, the items upserted and the classification and destination tables refilled, each only when the batch has rows for it |
| Persistence.DatabaseManager.InsertAfterTratamentos | src/database/manager.py:501-607 | the writes after the tratamentos never fail: agency and remittance tables, export invoices, the remaining item and declaration tables, the concession acts and the tax requirements, in the source's order |
| Persistence.DatabaseManager.InsertFullDue | src/database/manager.py:459-616 | among the constraints modelled (a principal record with a numero, tratamentos with ids), the whole insertion succeeds exactly when they hold; then the tables are the result of every write in order, and otherwise they are rolled back to their old state |
| Persistence.DatabaseManager.InsertLinks | src/database/manager.py:293-322 | a non-empty batch is written exactly when every entry names its key and DUE, chave_nf, numero_due and origem are non-null and fit the VARCHAR(44), VARCHAR(14) and VARCHAR(20) columns of the link table, and no key repeats within one page of 100 rows; the count is then the batch size and the links are upserted, and otherwise the count is 0 and the links are unchanged; no other table changes |
| Persistence.DatabaseManager.TouchLastSync | src/database/manager.py:1170-1282 | the principal table and the count are those of the lot-by-lot update, and no other table changes |
| Persistence.BuildRows | src/database/manager.py:778-817 | the loop sends one row per record, in record order, each built from the record and its position in the batch |
| Persistence.BuildTratamentos | src/database/manager.py:840-860 | the treatment batch holds each record's row with the default id from its position, and the database accepts it exactly when no row's id is null |
| SupportTables.GetOr | src/api/siscomex/tabx.py:165 | `.get` succeeds exactly on a dict and then gives the field or the default |
| SupportTables.Elements | src/api/siscomex/tabx.py:168 | iterating a list gives its items in order, and a truthy iterable value that iterates is a non-empty list |
| SupportTables.Traverse | src/api/siscomex/tabx.py:166-169 | a comprehension succeeds exactly when every element's step succeeds, and then yields one result per element in order |
| SupportTables.Underscored | src/api/siscomex/tabx.py:286 | replacing spaces by underscores keeps the length and changes nothing but the spaces |
| SupportTables.ColumnName | src/api/siscomex/tabx.py:286 | a column name has the field name's length, no spaces and no upper-case letters, and is the field name lower-cased with spaces as underscores |
| SupportTables.ColumnNameIdempotent | src/api/siscomex/tabx.py:286 | a column name is its own column name |
| SupportTables.DataRequestMeaning | src/api/siscomex/tabx.py:164-183 | empty metadata or metadata without fields gives a plain GET; metadata listing its fields sends their names in order, by POST in tabx.py and in the camposRetorno parameter in download_tabelas.py; a POST or a field list is sent only then |
| SupportTables.ScriptsRequestSameFields | download_tabelas.py:118-136 | the two scripts fail alike and ask for the same field names, one by POST and the other in the URL |
| SupportTables.ProcessTableMeaning | src/api/siscomex/tabx.py:145-235 | an empty table name is skipped; a rate-limit or expired-token marker from the metadata is passed on with the table's name; then the data step's own checks are applied before the data request is built: a failed token renewal gives expired-token and a reached hourly limit gives rate-limit, each with the table's name; then a marker in the data reply; otherwise the table is fetched exactly when the checks let it proceed and both replies are non-empty, and it carries both |
| SupportTables.UnbuildableRequestLimited | src/api/siscomex/tabx.py:153-162 | for metadata from which no data request can be built (fields `[1]`), a reached hourly limit still gives the rate-limit result, and only when the checks pass is the table reported as retrieving nothing |
| SupportTables.MetaRow | src/api/siscomex/tabx.py:259-271 | a metadata row exists exactly for a dict field, names the table, and carries the field's name and size or the defaults '' and 0 |
| SupportTables.ApplyMeaning | src/api/siscomex/tabx.py:281-295 | after the column assignments each assigned column holds its last value and every other column keeps its starting value |
| SupportTables.ApplyKeepsKey | src/api/siscomex/tabx.py:281-295 | a column present before the assignments is still present after them |
| SupportTables.PlainFieldWrites | src/api/siscomex/tabx.py:282-287 | a field without foreign-table data assigns exactly its own column, its value defaulting to '' |
| SupportTables.DataRow | src/api/siscomex/tabx.py:277-297 | a record gives a row exactly when it has fields, and the row names its table |
| SupportTables.DataRowsMeaning | src/api/siscomex/tabx.py:275-297 | the data rows are one per record with fields, and they are produced exactly when no record raises |
| SupportTables.NormalizeMeaning | src/api/siscomex/tabx.py:237-299 | a normalised table has exactly two distinct structures, data then metadata; the metadata rows describe the listed fields one by one; without fields there are none; the data rows are one per record with fields |
| SupportTables.LaterFieldOverwrites | src/api/siscomex/tabx.py:286-287 | two fields whose names differ only in case or spaces write the same column, and the later one's value is kept |
| TableDownload.AddRows | src/api/siscomex/tabx.py:419-421 | extending a structure adds its name once, appends the rows to it alone, keeps every other structure and appends a new structure at the end |
| TableDownload.MergeKeys | src/api/siscomex/tabx.py:418-421 | merging a normalised table adds exactly its structure names and never duplicates a structure |
| TableDownload.MergeRows | src/api/siscomex/tabx.py:418-421 | after the merge every structure holds its old rows followed by the rows the table contributes to it |
| TableDownload.FirstLimit | src/api/siscomex/tabx.py:404-407 | the position found is the first rate-limited result, or the end when there is none |
| TableDownload.FirstPassStops | src/api/siscomex/tabx.py:396-407 | the loop stops on a rate limit exactly when a result is one, having counted the results up to and including it, and otherwise counts them all |
| TableDownload.StepQueues | src/api/siscomex/tabx.py:396-418 | one completed result queues its table exactly when its token expired, and stops the loop exactly when it is a rate limit |
| TableDownload.FirstPassQueues | src/api/siscomex/tabx.py:410-411 | without a rate limit every table whose token expired is queued for a retry, in completion order |
| TableDownload.FirstPassRows | src/api/siscomex/tabx.py:413-421 | without a rate limit each structure holds the rows the fetched tables contribute, in completion order |
| TableDownload.FirstPassDistinct | src/api/siscomex/tabx.py:419-421 | the first pass never duplicates a structure |
| TableDownload.LaterResultsIgnored | src/api/siscomex/tabx.py:404-407 | results completing after the first rate limit change nothing |
| TableDownload.RunFirstPass | src/api/siscomex/tabx.py:377-433 | the loop over the completed results ends in the state the completion-order pass describes |
| TableDownload.ReprocessKeys | src/api/siscomex/tabx.py:442-456 | the retries keep every structure of the first pass and never duplicate one |
| TableDownload.ReprocessRows | src/api/siscomex/tabx.py:442-456 | after the retries each structure holds its first-pass rows followed by the rows of the listed retried tables, in queue order |
| TableDownload.ReprocessAgrees | src/api/siscomex/tabx.py:445-454 | when no retry comes back as a marker or fails to normalise, the retry loop as written gives the same structures as the intended one |
| TableDownload.ExpiredAgainCrashes | src/api/siscomex/tabx.py:448-450 | a table whose token expires again on its retry makes the loop as written raise, while the intended loop skips it |
| TableDownload.ReprocessFails | src/api/siscomex/tabx.py:442-456 | the retry loop as written raises exactly when some queued table is listed and its retry is a marker dict or fails to normalise |
| TableDownload.RunReprocess | download_tabelas.py:413-427 | the retry loop as written: it raises (None) when a listed retry answers a marker dict or does not normalise, and otherwise ends with the structures `ReprocessAsWritten` gives |
| TableDownload.FilesMeaning | download_tabelas.py:264-276 | one CSV is written per non-empty structure, every file holds rows, and together they hold every consolidated row |
| TableDownload.SaveStructures | download_tabelas.py:251-279 | the files written and the two totals are those of the consolidated structures |
| TableDownload.StatisticsMeaning | download_tabelas.py:438-439 | the data rows and the metadata rows add up to every row, and the data structures are never more than the structures |
| TableDownload.Insert | download_tabelas.py:292 | inserting a name into a sorted list keeps it sorted and adds exactly that name |
| TableDownload.Sort | download_tabelas.py:292 | `sorted` gives an ordered permutation of its input |
| TableDownload.RemoveAll | download_tabelas.py:289 | removing a pattern never lengthens a name |
| TableDownload.RemoveAbsent | download_tabelas.py:289 | a name that does not contain the pattern is left unchanged |
| TableDownload.Upper | download_tabelas.py:298 | upper-casing keeps the length |
| TableDownload.PrincipalsIn | download_tabelas.py:286-290 | the main tables are exactly the structures not ending in "_metadados", with "tabela_" removed |
| TableDownload.SummaryMeaning | download_tabelas.py:281-303 | the summary walks the main tables once each in sorted order and has a line for exactly those with data or metadata rows, counting both |
| TableDownload.SummaryRowsMeaning | download_tabelas.py:292-303 | a summary line is written exactly for a walked main table with rows |
| TableDownload.CollectPrincipals | download_tabelas.py:286-290 | the collected main tables are those of the structures, each kept once at its first occurrence |
| TableDownload.SummaryLines | download_tabelas.py:292-303 | the loop over the sorted names yields the summary lines of those with rows, in order |
| TableDownload.CreateSummary | download_tabelas.py:281-309 | the summary written is the summary of the consolidated structures |
| TableDownload.Statistics | download_tabelas.py:438-442 | the tables downloaded are the data structures and the records are their rows |
| TableDownload.TabxNeverReturnsTables | src/api/siscomex/tabx.py:436-480 | the current module never returns a table: it returns nothing or an empty dict; it raises from the retry loop exactly when the download stops there, and from the save exactly when a structure was consolidated, because saving to CSV was removed |
| TableDownload.RateLimitStopsDownload | src/api/siscomex/tabx.py:436-439 | a rate limit among the results stops both scripts before the retries and the save, whatever the retries would return |
| TableDownload.DownloadRateLimited | src/api/siscomex/tabx.py:436-439 | past the checks, a rate limit in the first pass stops the download |
| TableDownload.StoppedRuns | download_tabelas.py:407-410 | a download that stops ends both scripts with that stop, and neither returns anything |
| TableDownload.DownloadRows | src/api/siscomex/tabx.py:377-456 | without a rate limit and with the second login, the download goes on iff every queued retry is usable (otherwise the retry loop raises), and then each structure holds the first pass's rows followed by the retries' rows |
| TableDownload.RetryCrashEndsRuns | src/api/siscomex/tabx.py:442-456 | a queued retry that answers a marker dict (the token expired again, or a rate limit) or fails to normalise ends both scripts with the retry loop's exception and returns nothing |
| TableDownload.CleanFirstPass | src/api/siscomex/tabx.py:396-425 | without a rate limit the first pass queues every expired table and each structure holds every fetched row |
| TableDownload.DownloadGoes | src/api/siscomex/tabx.py:436-456 | past the checks and without a rate limit, the download keeps the first pass's structures when no token expired; otherwise it raises when the retry loop as written raises and takes that loop's structures when it does not |
| TableDownload.StandaloneSaveMeaning | download_tabelas.py:311-446 | the stand-alone script returns nothing; when it saves, the file count and row totals agree with the files, the rows are every consolidated row, the summary is that of the structures, and the statistics are bounded by them |
| TableDownload.DownloadTables | src/api/siscomex/tabx.py:328-480 | each script's run ends as its own description says: missing credentials, failed login, no tables, a declined answer, an unnamed descriptor, a rate limit, an exception out of the retry loop, nothing downloaded, or the save |

## Left out

- HTTP transport, urllib3 and connection pooling: every reply is an input, and a transport exception is an absent reply.
- JSON encoding and decoding, and URL encoding: payloads are structured values from the start.
- Console statistics, logging, progress bars, the WhatsApp notification and the statistics JSON files: they do not affect what is stored.
- Reading credentials from the environment and the entry scripts' argument handling: only the checks on the values read are modelled.
- Threads, locks and worker pools: each lock is treated as atomic, and a pool becomes the order in which its tasks complete, given as an input.
- Tasks of a pool that complete after the run has stopped on a rate limit: the model stops consuming results at the break.
- Sleeps: each one advances the clock by exactly its length.
- psycopg2 connection pools, DDL statements, SQL `ORDER BY` and the texts of database exceptions: database reads are inputs, and a failed statement is an absent result.
- The renaming of JSON field names to database column names in the table mappings of `manager.py`: rows keep the JSON names, except the key columns.
- PostgreSQL's refusal of an `ON CONFLICT` batch that touches one row twice, in the item, tratamento and export-invoice upserts (src/database/manager.py:826, 867, 938): in the model the later row wins. The link batch models it (Persistence.LinksWritable).
- A statement executed without commit: it is treated as not durable.
- `processar_sequencial_simples`, the sequential fallback of the parallel lookup: it is not modelled.
- `debug_mode`: it only changes logging.
- The `due_processor` helpers outside the modelled files: their answers are inputs (oracles).
- The token manager's helper calls made during a lookup: they are folded into the replies of that lookup.
- The query for orphan DUEs: its answer is an input.
- Each key lookup gives the same answer every time it is asked for the same key: a second lookup of one key is not modelled.
- `KeyboardInterrupt`: it is modelled only as the operator stopping between phases.
- A `rel` or `href` that is not a string: it is treated as absent.
- The CSV key joined with '|': it is modelled as a tuple of cells, so two keys whose cells contain '|' never collide.
- The CSV `data_vinculo` and `origem` columns, and the column typing pandas applies when it reads a CSV back: they are not modelled.
- The statistics of `salvar_tabelas_suporte` in `tabx.py`: they are never reached, because the save raises first.
- Persistence.ToNumber: integers only; a decimal string such as "1.5" becomes 0, and a float is not kept as a float.
- DbValues.ParseInt: underscores between digits, which Python's `int()` accepts, are not accepted.
- DbValues.Strip: removes ASCII white space only, not the other Unicode white-space characters of Python's `str.strip`.
- DbValues.Lower: folds ASCII letters only.
- DbValues.PyStr: a list or a dict becomes a fixed placeholder, not Python's `repr` of it.
- TableDownload.Upper: folds ASCII letters only, and its contract states only that the length is kept.
- TableDownload.RemoveAll: its contract bounds the length of the result and does not state where "tabela_" occurred in the name.
- Refresh.Call: the `RateLimitRaised` outcome is kept so that the `except RateLimitError` handlers around the supplementary queries are modelled as written, although `request` never produces it (Refresh.ViaRequest); with replies from `request` the loops never stop on a rate limit, as Refresh.RequestNeverStopsPhase1 and Discovery.RequestNeverStopsDownloads state.
- The refresh and discovery runs take the normaliser as a parameter; Refresh.AsWrittenProcessor plugs in the code as written, given how a payload dict is read into the DUE structure, which is not modelled field by field.
- DueCache.Extend: a table the consolidated dict lacks is dropped, where the source's `dados_normalizados_consolidados[tabela]` raises KeyError (src/processors/due.py:1228, 1273). The normaliser as written only yields the 21 initial tables (DueNormalizer.NormalizedAsWritten), so with it this does not arise.
- Metrics.MetricsCollector: the execution times and the average, maximum and minimum times of the summary (src/core/metrics.py:64-72) are floating-point wall-clock values and are not modelled; only calls and errors are counted.
- Metrics.MetricsCollector.constructor: models only the first construction, which starts with no metrics and no counters. In the source (src/core/metrics.py:29-36) `MetricsCollector` is a singleton: every later construction returns the one shared collector with what it has recorded so far, and every `timed` wrapper (src/core/metrics.py:82) records into that same collector.
- Persistence.DatabaseManager.InsertFullDue: `_inserir_batch_atos_concessorios` commits on its own (src/database/manager.py:1160), before the fiscal-requirement batch and the final commit (src/database/manager.py:609). A failure after that commit would leave the earlier tables written. The model's only failing writes, a principal record without numero and a tratamento without id, come before it, so the model does not show this partial commit.
- Persistence.DatabaseManager.TouchLastSync: a lot whose UPDATE runs but whose commit fails is still counted in the source's total while its rows are rolled back; the model treats a lot as either updated and counted or neither.
- Persistence.DatabaseManager.InsertFullDue and Persistence.DatabaseManager.InsertLinks: their "succeeds exactly when" covers only the constraints the model names. For InsertFullDue these are a principal record with a numero and tratamentos with ids. For InsertLinks they are non-null chave_nf, numero_due and origem, widths 44, 14 and 20, and no key repeated within one page of 100. Any other value the schema in src/database/schema.py rejects still makes PostgreSQL refuse the statement and roll the transaction back, where the model writes it. Examples are an evento longer than VARCHAR(150) (src/database/schema.py:272), a text in a TIMESTAMP or NUMERIC column, and a NULL in another NOT NULL column.
- Persistence.DatabaseManager.InsertLinks: a `data_vinculo` of the wrong type, and the text PostgreSQL makes of a non-text value before it checks a width, are not modelled.
- Session.SessionManager.Request and LegacyRefresh.LegacyIgnoresRateLimits: both sessions mount urllib3's `Retry(total=3, backoff_factor=0.5, status_forcelist=[429, 500, 502, 503, 504])` (src/api/siscomex/token.py:93-104, token_manager.py:69-88). A GET answered with one of those statuses is re-sent up to three more times with growing pauses. When every attempt fails, `requests` raises `RetryError`, so the caller never sees a 429 or 5xx reply to a GET, and a PUCX-ER1001 block that comes with such a status is re-sent before `request` reads it. The model does not include the adapter. Each reply is the server's answer to one send, "sends exactly once" counts the sends `request` makes, and a reply with one of those statuses stands for the case the adapter passes through. By urllib3's default `allowed_methods`, the POST logins are not re-sent on status.
- SessionRules.ParseBlockUntil and Session.SessionManager: the model runs on one clock. `token.py` uses two. Local time (`datetime.now()`) drives the hourly window, the next full hour, `_blocked_until` and the hinted unblock instant (src/api/siscomex/token.py:133-209, 248). UTC (`datetime.utcnow()`) drives the token expiry, `ultima_autenticacao` and `cached_at` (src/api/siscomex/token.py:280, 318, 379-383, 398, 416). The model matches the source only on a host whose local time is UTC; elsewhere the two families differ by the host's offset, and a daylight-saving change is not modelled.
- SessionRules.ParseBlockUntil: accepts ASCII digits only, while `\d` in Python's regular expressions also matches other Unicode decimal digits.
- ConfigValidator.PyInt: accepts ASCII digits only, while Python's `int()` also accepts other Unicode decimal digits.
- RateLimiter.TokenBucket.AcquireAt: requires the request to fit in the bucket's capacity. The source loops forever otherwise, as RateLimiter.AboveCapacityNeverGranted states, and its only caller asks for 1.0 token of a capacity of at least 1.

## Findings

| source | as written | input that shows it | evidently intended | confidence | as-written member | corrected member |
|---|---|---|---|---|---|---|
| src/processors/due.py:110-132, 549-593 | `processar_dados_due` appends exemption-act and fiscal-requirement rows to two tables it never created, so it raises `KeyError` | a DUE with one fiscal requirement (`exigencias_fiscais` non-empty) | each act and each requirement becomes one row of its table | not executed | DueNormalizer.NormalizedAsWritten, DueNormalizer.OneExigenciaRaises, Refresh.FiscalRequirementFailsAsWritten, Discovery.FiscalRequirementFailsAsWritten | DueNormalizer.Normalized, DueNormalizer.ExtrasBecomeRows |
| src/processors/due.py:621-624, 776-787 | a 401 on the third query returns the dict `{"error": "token_expirado", "numero_due": …}`, which is a non-empty dict and so replaces the DUE's data | link reply 200 with one link, details reply 200 with an empty object, third query 401 | an expired token on the third query keeps the data of the second query | not executed | DueLookup.ByNf, DueLookup.ThirdQueryExpiryBecomesPayload | DueLookup.ByNfCorrected, DueLookup.CorrectedPayloadIsAReply, DueCache.RetryByNf |
| src/processors/due.py:1266-1279 | the second pass over expired keys appends the normalised rows without checking whether the DUE was already consolidated | key k1 finds DUE 24BR0001, key k2 expires, and the retry of k2 finds the same DUE | each DUE's rows enter the tables once | not executed | DueCache.RetryAsWritten, DueCache.RetryDuplicatesRows, DueCache.Consolidation, DueCache.ConsolidationRows | DueCache.Retry, DueCache.RetryKeepsOnce, DueCache.CorrectedConsolidation, DueCache.ConsolidationOnce |
| src/api/siscomex/tabx.py:440-454, download_tabelas.py:413-425 | a table whose token is still expired on the retry yields the marker dict, which is truthy; `normalizar_dados_tabela` then raises `KeyError` and ends the whole download | one table listed in `tabelas` whose retry answers 401 again | the table is skipped as the first pass would skip it | not executed | TableDownload.ReprocessAsWritten, TableDownload.ExpiredAgainCrashes, TableDownload.ReprocessFails, TableDownload.RetryCrashEndsRuns | TableDownload.Reprocess, TableDownload.ReprocessRows, TableDownload.ReprocessAgrees |
