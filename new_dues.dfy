// The discovery of new DUEs (src/sync/new_dues.py): the invoice keys without a
// link are looked up by key, the links found are persisted (with retries), and
// every DUE they name is downloaded once, stopping at a rate limit. The lookups
// and downloads are inputs: the lookup result of each key, and the downloads
// in the order the pool completes them.
module Discovery {
  import opened Wrappers
  import opened Constants
  import N = DueNormalizer
  import L = DueLookup
  import C = DueCache
  import R = Refresh
  import CM = Completion

  // ---- Which invoice keys are queried ----

  /** The keys with no existing link, in the order they were loaded. */
  function Unlinked(nfs: seq<string>, links: map<string, string>): (r: seq<string>)
    ensures |r| <= |nfs|
    ensures forall k :: k in r <==> k in nfs && k !in links
  {
    if nfs == [] then []
    else
      assert forall k :: k in nfs <==> k == nfs[0] || k in nfs[1..];
      (if nfs[0] !in links then [nfs[0]] else []) + Unlinked(nfs[1..], links)
  }

  /** `args.limit if args.limit > 0 else len(nfs_sem_vinculo)`. */
  function MaxQueries(limit: int, unlinked: nat): int
  {
    if limit > 0 then limit else unlinked
  }

  /** The keys queried: the first `MaxQueries` unlinked keys. */
  function Queried(unlinked: seq<string>, limit: int): seq<string>
  {
    PyPrefix(unlinked, MaxQueries(limit, |unlinked|))
  }

  /** The keys left for the next run, as the summary reports them. */
  function Remaining(unlinked: seq<string>, limit: int): nat
  {
    var m := MaxQueries(limit, |unlinked|);
    if |unlinked| > m then |unlinked| - m else 0
  }

  /**
   * Without a limit every unlinked key is queried; with one, the first
   * `limit` of them; the keys queried and the keys remaining add up to the
   * unlinked ones.
   */
  lemma QueriedMeaning(unlinked: seq<string>, limit: int)
    ensures Queried(unlinked, limit) == unlinked[..|Queried(unlinked, limit)|]
    ensures limit <= 0 ==> Queried(unlinked, limit) == unlinked
    ensures limit > 0 ==> |Queried(unlinked, limit)| == if limit < |unlinked| then limit else |unlinked|
    ensures |Queried(unlinked, limit)| + Remaining(unlinked, limit) == |unlinked|
  {
  }

  // ---- Links from the lookups ----

  /** `resultado.get('DU-E') or resultado.get('numero')`: only a found DUE with a non-empty number links its key. */
  function LinkOf(l: L.Lookup): (r: Option<string>)
    ensures r.Some? <==> l.Found? && l.basic.numeroDue != ""
    ensures r.Some? ==> r.value == l.basic.numeroDue
  {
    if l.Found? && l.basic.numeroDue != "" then Some(l.basic.numeroDue) else None
  }

  /** `novos_vinculos`: each linked key to its DUE number. */
  function Links(ks: seq<string>, lookup: string -> L.Lookup): map<string, string>
  {
    if ks == [] then map[]
    else
      var m := Links(ks[..|ks| - 1], lookup);
      var k := ks[|ks| - 1];
      match LinkOf(lookup(k))
      case Some(d) => m[k := d]
      case None => m
  }

  /** `dues_para_baixar`: the numbers of the DUEs found. */
  function DuesFound(ks: seq<string>, lookup: string -> L.Lookup): set<string>
  {
    if ks == [] then {}
    else
      var s := DuesFound(ks[..|ks| - 1], lookup);
      match LinkOf(lookup(ks[|ks| - 1]))
      case Some(d) => s + {d}
      case None => s
  }

  /** `nfs_sem_due_encontrada`. */
  function NotFound(ks: seq<string>, lookup: string -> L.Lookup): nat
  {
    CountWhere(ks, (k: string) => LinkOf(lookup(k)).None?)
  }

  /** A key is linked iff its lookup found a numbered DUE, and to that number. */
  lemma {:induction false} LinksMeaning(ks: seq<string>, lookup: string -> L.Lookup)
    ensures forall k :: k in Links(ks, lookup) <==> k in ks && LinkOf(lookup(k)).Some?
    ensures forall k :: k in Links(ks, lookup) ==> Links(ks, lookup)[k] == LinkOf(lookup(k)).value
  {
    if ks != [] {
      LinksMeaning(ks[..|ks| - 1], lookup);
      assert forall x :: x in ks <==> x in ks[..|ks| - 1] || x == ks[|ks| - 1];
    }
  }

  /** The DUEs to download are exactly the numbers the keys are linked to, so keys sharing a DUE give one download. */
  lemma {:induction false} DuesAreLinked(ks: seq<string>, lookup: string -> L.Lookup)
    ensures forall d :: d in DuesFound(ks, lookup) <==> exists k :: k in ks && LinkOf(lookup(k)) == Some(d)
  {
    if ks != [] {
      var init := ks[..|ks| - 1];
      DuesAreLinked(init, lookup);
      assert forall x :: x in ks <==> x in init || x == ks[|ks| - 1];
    }
  }

  /** Every key queried is linked or counted as not found. */
  lemma {:induction false} NotFoundMeaning(ks: seq<string>, lookup: string -> L.Lookup)
    ensures NotFound(ks, lookup) == 0 <==> forall k :: k in ks ==> LinkOf(lookup(k)).Some?
    ensures NotFound(ks, lookup) == |ks| <==> forall k :: k in ks ==> LinkOf(lookup(k)).None?
  {
    if ks != [] {
      var init := ks[..|ks| - 1];
      NotFoundMeaning(init, lookup);
      assert forall x :: x in ks <==> x in init || x == ks[|ks| - 1];
    }
  }

  /** Two keys found for the same DUE give it once in the download set. */
  lemma SharedDueDownloadedOnce(k1: string, k2: string, lookup: string -> L.Lookup, d: string)
    requires LinkOf(lookup(k1)) == Some(d) && LinkOf(lookup(k2)) == Some(d)
    ensures DuesFound([k1, k2], lookup) == {d}
  {
    assert [k1, k2][..1] == [k1];
    assert [k1][..0] == [];
    assert DuesFound([k1], lookup) == {d};
  }

  /** The lookup loop: the pool's results update the link map, the DUE set and the not-found count. */
  method CollectLinks(ks: seq<string>, lookup: string -> L.Lookup)
    returns (links: map<string, string>, dues: set<string>, notFound: nat)
    ensures links == Links(ks, lookup) && dues == DuesFound(ks, lookup) && notFound == NotFound(ks, lookup)
  {
    links, dues, notFound := map[], {}, 0;
    for i := 0 to |ks|
      invariant links == Links(ks[..i], lookup) && dues == DuesFound(ks[..i], lookup)
      invariant notFound == NotFound(ks[..i], lookup)
    {
      assert ks[..i + 1][..i] == ks[..i];
      var chave := ks[i];
      var numero := LinkOf(lookup(chave));
      if numero.Some? {
        links := links[chave := numero.value];
        dues := dues + {numero.value};
      } else {
        notFound := notFound + 1;
      }
    }
    assert ks[..|ks|] == ks;
  }

  // ---- `salvar_novos_vinculos` ----

  /** One attempt: no connection, an insert reporting its row count, or an insert that raised. */
  datatype LinkAttempt = NoConnection | Inserted(count: int) | InsertRaised

  /** Nothing to save, saved at an attempt, three attempts without rows, or RuntimeError. */
  datatype LinkSave = NoLinks | LinksSaved(attempt: nat) | NothingSaved | SaveFailed

  predicate Succeeds(a: LinkAttempt)
  {
    a.Inserted? && a.count > 0
  }

  /** The attempts from `t` on: a failure before the last one waits 2 s and retries, a zero count retries at once. */
  function SaveFrom(t: nat, attempt: nat -> LinkAttempt): LinkSave
    decreases 3 - t
  {
    if t >= 3 then NothingSaved
    else match attempt(t)
      case Inserted(count) => if count > 0 then LinksSaved(t) else SaveFrom(t + 1, attempt)
      case _ => if t < 2 then SaveFrom(t + 1, attempt) else SaveFailed
  }

  function SaveLinks(links: map<string, string>, attempt: nat -> LinkAttempt): LinkSave
  {
    if links == map[] then NoLinks else SaveFrom(0, attempt)
  }

  /** The seconds waited between attempts from `t` on. */
  function WaitFrom(t: nat, attempt: nat -> LinkAttempt): nat
    decreases 3 - t
  {
    if t >= 2 then 0
    else match attempt(t)
      case Inserted(count) => if count > 0 then 0 else WaitFrom(t + 1, attempt)
      case _ => 2 + WaitFrom(t + 1, attempt)
  }

  /**
   * An empty map makes no attempt; at most three attempts are made; the save
   * returns at the first insert with rows; a failure of the third attempt
   * raises; three attempts without success otherwise end silently.
   */
  lemma SaveLinksMeaning(links: map<string, string>, attempt: nat -> LinkAttempt)
    ensures SaveLinks(links, attempt) == NoLinks <==> links == map[]
    ensures SaveLinks(links, attempt).LinksSaved? ==>
              var t := SaveLinks(links, attempt).attempt;
              t < 3 && Succeeds(attempt(t)) && forall j :: 0 <= j < t ==> !Succeeds(attempt(j))
    ensures SaveLinks(links, attempt) == SaveFailed <==>
              links != map[] && !Succeeds(attempt(0)) && !Succeeds(attempt(1)) && !attempt(2).Inserted?
    ensures SaveLinks(links, attempt) == NothingSaved <==>
              links != map[] && !Succeeds(attempt(0)) && !Succeeds(attempt(1)) && attempt(2).Inserted? && attempt(2).count <= 0
    ensures WaitFrom(0, attempt) <= 4
  {
  }

  /** The retry loop of `salvar_novos_vinculos`; `waited` is the time slept. */
  method SaveNewLinks(links: map<string, string>, attempt: nat -> LinkAttempt) returns (r: LinkSave, waited: nat)
    ensures r == SaveLinks(links, attempt)
    ensures links != map[] ==> waited == WaitFrom(0, attempt)
  {
    waited := 0;
    if links == map[] {
      return NoLinks, 0;
    }
    var tentativa := 0;
    while tentativa < 3
      invariant 0 <= tentativa <= 3
      invariant SaveFrom(tentativa, attempt) == SaveFrom(0, attempt)
      invariant waited + WaitFrom(tentativa, attempt) == WaitFrom(0, attempt)
    {
      match attempt(tentativa) {
        case Inserted(count) =>
          if count > 0 {
            return LinksSaved(tentativa), waited;
          }
        case _ =>
          if tentativa < 2 {
            waited := waited + 2;
          } else {
            return SaveFailed, waited;
          }
      }
      tentativa := tentativa + 1;
    }
    return NothingSaved, waited;
  }

  // ---- Downloads ----

  /** `baixar_due_completa`: the refresh's pending download of a DUE number, with the module's fetch flags. */
  function DownloadNew(numero: string, r: R.PendingReplies, normalize: R.Processor): R.Download
  {
    R.DownloadPending(R.Candidate(Str(numero), None), r, DefaultFetchFlags, normalize)
  }

  /**
   * With the default flags the exemption query is never made; a rate limit
   * escapes only from a flagged supplementary query of a DUE that was found.
   */
  lemma DownloadNewMeaning(numero: string, r: R.PendingReplies, isencao: R.Call, normalize: R.Processor)
    ensures DownloadNew(numero, r, normalize) == DownloadNew(numero, r.(isencao := isencao), normalize)
    ensures DownloadNew(numero, r, normalize).DownloadRateLimited? <==>
              !L.FullLookup(r.attempts).FullNone? && (r.suspensao.RateLimitRaised? || r.exigencias.RateLimitRaised?)
    ensures L.FullLookup(r.attempts).FullNone? ==> DownloadNew(numero, r, normalize) == R.Downloaded(None)
  {
    R.DownloadMeaning(R.Candidate(Str(numero), None), r, DefaultFetchFlags, normalize);
  }

  /**
   * With the normaliser as written, a found DUE whose fiscal-requirement
   * query (always made with the default flags) answers one requirement is a
   * download error: it adds no rows and counts in `dues_erro`.
   */
  lemma FiscalRequirementFailsAsWritten(numero: string, r: R.PendingReplies, shape: map<string, Value> -> N.Due, e: Value)
    requires !r.suspensao.RateLimitRaised? && r.exigencias == R.Answered(200, Some(List([e])))
    requires L.FullLookup(r.attempts).FullData? && L.FullLookup(r.attempts).data.Obj?
    requires var fields := L.FullLookup(r.attempts).data.fields;
             TruthyValue(L.GetOr(fields, "numero", Str(""))) && shape(fields).numero != ""
    ensures DownloadNew(numero, r, R.AsWrittenProcessor(shape)) == R.Downloaded(None)
    ensures FetchFrom(StartFetching(), [(numero, DownloadNew(numero, r, R.AsWrittenProcessor(shape)))])
            == StartFetching().(erro := 1)
  {
    R.FiscalRequirementFailsAsWritten(R.Candidate(Str(numero), None), r, DefaultFetchFlags, shape, e);
  }

  /** What the download loop gathers. */
  datatype Fetching = Fetching(tables: N.Tables, ok: nat, erro: nat, rateLimited: bool)

  function StartFetching(): Fetching
  {
    Fetching(R.EmptyRun(), 0, 0, false)
  }

  /** The results in completion order: a DUE with tables is ok, one without is an error, a rate limit stops the loop. */
  function FetchFrom(f: Fetching, order: seq<(string, R.Download)>): Fetching
    decreases |order|
  {
    if order == [] then f
    else match order[0].1
      case DownloadRateLimited => f.(rateLimited := true)
      case Downloaded(t) =>
        var next := if R.HasTables(t) then f.(tables := C.Extend(f.tables, t.value), ok := f.ok + 1) else f.(erro := f.erro + 1);
        FetchFrom(next, order[1..])
  }

  /** Every result before the first rate limit moves exactly one counter, and nothing after it is looked at. */
  lemma {:induction false} FetchMeaning(f: Fetching, order: seq<(string, R.Download)>)
    requires !f.rateLimited
    ensures FetchFrom(f, order).ok + FetchFrom(f, order).erro == f.ok + f.erro + R.FirstLimit(order)
    ensures FetchFrom(f, order).rateLimited <==> R.FirstLimit(order) < |order|
    ensures FetchFrom(f, order).ok >= f.ok
    decreases |order|
  {
    if order != [] && order[0].1.Downloaded? {
      var t := order[0].1.tables;
      var next := if R.HasTables(t) then f.(tables := C.Extend(f.tables, t.value), ok := f.ok + 1) else f.(erro := f.erro + 1);
      FetchMeaning(next, order[1..]);
    }
  }

  /** The downloads, in completion order, of DUE numbers with their replies. */
  function NewDownloads(pending: seq<(string, R.PendingReplies)>, normalize: R.Processor): (r: seq<(string, R.Download)>)
    ensures |r| == |pending|
    ensures forall i :: 0 <= i < |r| ==> r[i] == (pending[i].0, DownloadNew(pending[i].0, pending[i].1, normalize))
  {
    seq(|pending|, i requires 0 <= i < |pending| => (pending[i].0, DownloadNew(pending[i].0, pending[i].1, normalize)))
  }

  /**
   * With replies as `request` gives them (it never raises RateLimitError) the
   * download loop never breaks: every DUE is counted ok or failed and the
   * normal save, not the partial one, follows.
   */
  lemma RequestNeverStopsDownloads(pending: seq<(string, R.PendingReplies)>, normalize: R.Processor)
    requires forall i :: 0 <= i < |pending| ==> R.RepliesViaRequest(pending[i].1)
    ensures var f := FetchFrom(StartFetching(), NewDownloads(pending, normalize));
            !f.rateLimited && f.ok + f.erro == |pending| && SavedCount(f) == f.ok
            && forall a :: a in Writes(f) ==> a.Save?
  {
    var order := NewDownloads(pending, normalize);
    forall i | 0 <= i < |order|
      ensures order[i].1.Downloaded?
    {
      DownloadNewMeaning(pending[i].0, pending[i].1, pending[i].1.isencao, normalize);
    }
    FetchMeaning(StartFetching(), order);
  }

  /** The download loop (parallel or sequential): it breaks out at the first rate limit. */
  method DownloadDues(order: seq<(string, R.Download)>) returns (f: Fetching)
    ensures f == FetchFrom(StartFetching(), order)
  {
    f := StartFetching();
    var i := 0;
    while i < |order|
      invariant 0 <= i <= |order| && !f.rateLimited
      invariant FetchFrom(f, order[i..]) == FetchFrom(StartFetching(), order)
    {
      assert order[i..][1..] == order[i + 1..];
      var (numero, d) := order[i];
      match d {
        case DownloadRateLimited =>
          f := f.(rateLimited := true);
          return;
        case Downloaded(t) =>
          if R.HasTables(t) {
            f := f.(tables := C.Extend(f.tables, t.value), ok := f.ok + 1);
          } else {
            f := f.(erro := f.erro + 1);
          }
      }
      i := i + 1;
    }
  }

  /** The DUEs reported saved: 0 after a rate limit (the partial save's tuple unpack fails), else `dues_ok`. */
  function SavedCount(f: Fetching): nat
  {
    if f.rateLimited then R.PartialSaveAsWritten(f.tables).1 else f.ok
  }

  // ---- The run (`processar_novas_nfs`) ----

  datatype Action = Authenticate | WriteLinks(links: map<string, string>) | StartDownloads(dues: set<string>)
                  | PartialWrite(tables: N.Tables) | Save(tables: N.Tables)

  datatype Ending = LoadFailed | NoInvoices | AllLinked | NoCredentials | AuthFailed | LinkSaveFailed | Finished

  /** The summary: keys queried (as reported), new links, DUEs to download, DUEs saved, download errors, keys left. */
  datatype Summary = Summary(queried: int, newLinks: nat, duesFound: nat, saved: nat, failed: nat, remaining: nat)

  datatype Run = Run(actions: seq<Action>, ending: Ending, summary: Option<Summary>)

  /** The download results of a run: nothing when no DUE was found. */
  function FetchOf(dues: set<string>, downloads: seq<(string, R.Download)>): Fetching
  {
    if dues == {} then StartFetching() else FetchFrom(StartFetching(), downloads)
  }

  /** What the download step writes: the partial save after a rate limit, else the save when a DUE downloaded. */
  function Writes(f: Fetching): seq<Action>
  {
    if f.rateLimited then (if R.PartialSaveAsWritten(f.tables).0 then [PartialWrite(f.tables)] else [])
    else if f.ok > 0 then [Save(f.tables)] else []
  }

  function DownloadActions(dues: set<string>, downloads: seq<(string, R.Download)>): seq<Action>
  {
    if dues == {} then [] else [StartDownloads(dues)] + Writes(FetchOf(dues, downloads))
  }

  /** After a rate limit nothing is saved normally and 0 DUEs are reported; otherwise the save happens iff a DUE downloaded. */
  lemma WritesMeaning(f: Fetching)
    ensures f.rateLimited ==> forall a :: a in Writes(f) ==> a.PartialWrite?
    ensures f.rateLimited ==> SavedCount(f) == 0
    ensures f.rateLimited ==> (Writes(f) != [] <==> R.PrincipalCount(f.tables) > 0)
    ensures !f.rateLimited ==> (Writes(f) != [] <==> f.ok > 0) && SavedCount(f) == f.ok
  {
  }

  /** The run once logged in: the lookups, the link save, then the downloads. */
  function AfterLogin(unlinked: seq<string>, limit: int, lookup: string -> L.Lookup, attempt: nat -> LinkAttempt,
                      downloads: seq<(string, R.Download)>): Run
  {
    var ks := Queried(unlinked, limit);
    var links := Links(ks, lookup);
    var dues := DuesFound(ks, lookup);
    var write := if links != map[] then [WriteLinks(links)] else [];
    if SaveLinks(links, attempt) == SaveFailed then Run([Authenticate] + write, LinkSaveFailed, None)
    else
      var f := FetchOf(dues, downloads);
      Run([Authenticate] + write + DownloadActions(dues, downloads), Finished,
          Some(Summary(MaxQueries(limit, |unlinked|), |links|, |dues|, if dues == {} then 0 else SavedCount(f),
                       f.erro, Remaining(unlinked, limit))))
  }

  /**
   * `processar_novas_nfs`: the keys (None when the database cannot be read),
   * the existing links, the limit, the credentials and login, the lookups,
   * the link-save attempts and the downloads in completion order.
   */
  function DiscoveryRun(nfs: Option<seq<string>>, existing: map<string, string>, limit: int, credentials: bool,
                        authOk: bool, lookup: string -> L.Lookup, attempt: nat -> LinkAttempt,
                        downloads: seq<(string, R.Download)>): Run
  {
    if nfs.None? then Run([], LoadFailed, None)
    else if nfs.value == [] then Run([], NoInvoices, None)
    else if Unlinked(nfs.value, existing) == [] then Run([], AllLinked, None)
    else if !credentials then Run([], NoCredentials, None)
    else if !authOk then Run([Authenticate], AuthFailed, None)
    else AfterLogin(Unlinked(nfs.value, existing), limit, lookup, attempt, downloads)
  }

  /** Nothing is contacted when there is no key or every key is linked, and authentication comes first. */
  lemma DiscoveryRunQuiet(nfs: Option<seq<string>>, existing: map<string, string>, limit: int, credentials: bool,
                          authOk: bool, lookup: string -> L.Lookup, attempt: nat -> LinkAttempt,
                          downloads: seq<(string, R.Download)>)
    ensures var r := DiscoveryRun(nfs, existing, limit, credentials, authOk, lookup, attempt, downloads);
            (nfs.Some? && Unlinked(nfs.value, existing) == [] ==> r.actions == [])
            && (r.actions != [] ==> r.actions[0] == Authenticate)
            && (r.ending == Finished <==> nfs.Some? && Unlinked(nfs.value, existing) != [] && credentials && authOk
                                          && SaveLinks(Links(Queried(Unlinked(nfs.value, existing), limit), lookup), attempt) != SaveFailed)
  {
  }

  /**
   * The links are written before any download starts, and a failed link save
   * stops the run before any download.
   */
  lemma LinksBeforeDownloads(unlinked: seq<string>, limit: int, lookup: string -> L.Lookup, attempt: nat -> LinkAttempt,
                             downloads: seq<(string, R.Download)>)
    ensures var r := AfterLogin(unlinked, limit, lookup, attempt, downloads);
            (forall j :: 0 <= j < |r.actions| && r.actions[j].StartDownloads? ==>
               r.ending == Finished && (j == 1 || (j == 2 && r.actions[1].WriteLinks?)))
            && (r.ending == LinkSaveFailed ==> forall a :: a in r.actions ==> a.Authenticate? || a.WriteLinks?)
            && (Links(Queried(unlinked, limit), lookup) != map[] ==> r.actions[1] == WriteLinks(Links(Queried(unlinked, limit), lookup)))
  {
    var ks := Queried(unlinked, limit);
    var links := Links(ks, lookup);
    var dues := DuesFound(ks, lookup);
    var write := if links != map[] then [WriteLinks(links)] else [];
    if SaveLinks(links, attempt) != SaveFailed {
      var acts := [Authenticate] + write + DownloadActions(dues, downloads);
      assert forall j :: 0 <= j < |acts| && acts[j].StartDownloads? ==> j == 1 + |write|;
    }
  }

  /**
   * When the downloads complete each DUE found once, a run that finishes
   * without a rate limit reports every DUE found as saved or failed, once.
   */
  lemma DiscoveryCovers(unlinked: seq<string>, limit: int, lookup: string -> L.Lookup, attempt: nat -> LinkAttempt,
                        downloads: seq<(string, R.Download)>)
    requires CM.CompletesOnce(downloads, multiset(DuesFound(Queried(unlinked, limit), lookup)))
    ensures var r := AfterLogin(unlinked, limit, lookup, attempt, downloads);
            r.ending == Finished && !FetchOf(DuesFound(Queried(unlinked, limit), lookup), downloads).rateLimited ==>
              r.summary.value.saved + r.summary.value.failed == r.summary.value.duesFound
  {
    var dues := DuesFound(Queried(unlinked, limit), lookup);
    if dues != {} {
      CM.CompletesSet(downloads, dues);
      FetchMeaning(StartFetching(), downloads);
      WritesMeaning(FetchOf(dues, downloads));
    }
  }

  /** After a rate limit only the partial save writes and 0 DUEs are reported saved; the keys queried and left add up. */
  lemma AfterLoginSummary(unlinked: seq<string>, limit: int, lookup: string -> L.Lookup, attempt: nat -> LinkAttempt,
                          downloads: seq<(string, R.Download)>)
    ensures var r := AfterLogin(unlinked, limit, lookup, attempt, downloads);
            (r.ending == Finished && FetchFrom(StartFetching(), downloads).rateLimited ==>
               (forall a :: a in r.actions ==> !a.Save?) && r.summary.value.saved == 0)
            && (r.ending == Finished ==> r.summary.value.remaining + |Queried(unlinked, limit)| == |unlinked|
                                         && r.summary.value.newLinks == |Links(Queried(unlinked, limit), lookup)|)
  {
    QueriedMeaning(unlinked, limit);
    var ks := Queried(unlinked, limit);
    var dues := DuesFound(ks, lookup);
    WritesMeaning(FetchOf(dues, downloads));
  }

  /** The download step: the downloads in completion order, then the partial save or the save. */
  method DownloadStep(dues: set<string>, downloads: seq<(string, R.Download)>)
    returns (actions: seq<Action>, f: Fetching, saved: nat)
    ensures actions == DownloadActions(dues, downloads) && f == FetchOf(dues, downloads)
    ensures saved == if dues == {} then 0 else SavedCount(f)
  {
    actions, f, saved := [], StartFetching(), 0;
    if dues != {} {
      actions := [StartDownloads(dues)];
      f := DownloadDues(downloads);
      if f.rateLimited {
        var (written, reported) := R.PartialSaveAsWritten(f.tables);
        if written {
          actions := actions + [PartialWrite(f.tables)];
        }
        saved := reported;
      } else if f.ok > 0 {
        actions := actions + [Save(f.tables)];
        saved := f.ok;
      }
    }
  }

  /** The steps after login: the lookups, the link save, the downloads and the save. */
  method LinkAndDownload(unlinked: seq<string>, limit: int, lookup: string -> L.Lookup, attempt: nat -> LinkAttempt,
                         downloads: seq<(string, R.Download)>) returns (run: Run)
    ensures run == AfterLogin(unlinked, limit, lookup, attempt, downloads)
  {
    var actions := [Authenticate];
    var maxConsultas := MaxQueries(limit, |unlinked|);
    var links, dues, notFound := CollectLinks(PyPrefix(unlinked, maxConsultas), lookup);
    if links != map[] {
      actions := actions + [WriteLinks(links)];
      var saved, waited := SaveNewLinks(links, attempt);
      if saved == SaveFailed {
        return Run(actions, LinkSaveFailed, None);
      }
    }
    assert SaveLinks(links, attempt) != SaveFailed;
    var downloadActions, f, saved := DownloadStep(dues, downloads);
    actions := actions + downloadActions;
    var remaining := if |unlinked| > maxConsultas then |unlinked| - maxConsultas else 0;
    return Run(actions, Finished, Some(Summary(maxConsultas, |links|, |dues|, saved, f.erro, remaining)));
  }

  /** The run of `processar_novas_nfs`, step by step. */
  method DiscoverNew(nfs: Option<seq<string>>, existing: map<string, string>, limit: int, credentials: bool,
                     authOk: bool, lookup: string -> L.Lookup, attempt: nat -> LinkAttempt,
                     downloads: seq<(string, R.Download)>) returns (run: Run)
    ensures run == DiscoveryRun(nfs, existing, limit, credentials, authOk, lookup, attempt, downloads)
  {
    if nfs.None? {
      return Run([], LoadFailed, None);
    }
    if nfs.value == [] {
      return Run([], NoInvoices, None);
    }
    var unlinked := Unlinked(nfs.value, existing);
    if unlinked == [] {
      return Run([], AllLinked, None);
    }
    if !credentials {
      return Run([], NoCredentials, None);
    }
    if !authOk {
      return Run([Authenticate], AuthFailed, None);
    }
    run := LinkAndDownload(unlinked, limit, lookup, attempt, downloads);
  }
}
