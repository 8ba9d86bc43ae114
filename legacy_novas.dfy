// The legacy discovery script (sync_novas.py): the invoice keys are read from
// the database or the SAP export, the keys without a link are looked up one by
// one, the links found go to the database or else to a CSV file, and each DUE
// named is downloaded in turn. The lookups, the insert, the files and the
// normaliser are inputs.
module LegacyDiscovery {
  import opened Wrappers
  import N = DueNormalizer
  import L = DueLookup
  import C = DueCache
  import R = Refresh
  import D = Discovery
  import LR = LegacyRefresh
  import CM = Completion

  /** `MAX_CONSULTAS_NF`, the default of `--limit`. */
  const DefaultLimit: int := 400

  // ---- The invoice keys ----

  /** The export filter of this script: a non-empty cell of at least 44 characters. */
  predicate LegacyKeyCell(c: Option<string>)
  {
    c.Some? && |c.value| >= 44
  }

  /** The cells the filter keeps, in file order. */
  function KeyCells(cells: seq<Option<string>>): (r: seq<string>)
    ensures |r| <= |cells|
    ensures forall k :: k in r <==> Some(k) in cells && |k| >= 44
  {
    if cells == [] then []
    else
      assert forall c :: c in cells <==> c == cells[0] || c in cells[1..];
      (if LegacyKeyCell(cells[0]) then [cells[0].value] else []) + KeyCells(cells[1..])
  }

  /** The keys of the export: distinct, in order of first appearance; nothing when it is absent, unreadable or keyless. */
  function CsvKeys(f: L.KeyFile): (r: seq<string>)
  {
    if f.KeyColumn? then L.FirstOccurrences(KeyCells(f.cells), {}) else []
  }

  lemma CsvKeysMeaning(f: L.KeyFile)
    ensures !f.KeyColumn? ==> CsvKeys(f) == []
    ensures f.KeyColumn? ==> forall k :: k in CsvKeys(f) <==> Some(k) in f.cells && |k| >= 44
    ensures L.Distinct(CsvKeys(f))
  {
  }

  /** Every key of this filter passes the newer one (longer than 40 characters). */
  lemma CsvKeysAreKeys(f: L.KeyFile)
    ensures forall k :: k in CsvKeys(f) ==> k in L.NfKeys(f)
  {
    L.NfKeysMeaning(f);
    CsvKeysMeaning(f);
  }

  /** A 41-character cell is a key for the newer filter and not for this one. */
  lemma ShortKeyOnlyInNewerFilter(s: string)
    requires |s| == 41
    ensures s in L.NfKeys(L.KeyColumn([Some(s)]))
    ensures s !in CsvKeys(L.KeyColumn([Some(s)]))
  {
    L.NfKeysMeaning(L.KeyColumn([Some(s)]));
    CsvKeysMeaning(L.KeyColumn([Some(s)]));
  }

  /**
   * `carregar_nfs_sap`: a non-empty key list from the database wins;
   * otherwise (no connection, a failing query, no keys) the export is read.
   */
  function LoadInvoiceKeys(db: Option<seq<string>>, file: L.KeyFile): (r: seq<string>)
    ensures db.Some? && db.value != [] ==> r == db.value
    ensures db.None? || db.value == [] ==> r == CsvKeys(file)
  {
    if db.Some? && db.value != [] then db.value else CsvKeys(file)
  }

  // ---- Which invoice keys are queried ----

  /** `min(len(nfs_sem_vinculo), args.limit)`. */
  function MaxQueries(limit: int, unlinked: nat): int
  {
    if unlinked <= limit then unlinked else limit
  }

  /** `nfs_sem_vinculo[:max_consultas]`. */
  function Queried(unlinked: seq<string>, limit: int): seq<string>
  {
    PyPrefix(unlinked, MaxQueries(limit, |unlinked|))
  }

  /** The keys the summary says are left for the next run. */
  function Remaining(unlinked: seq<string>, limit: int): int
  {
    var m := MaxQueries(limit, |unlinked|);
    if |unlinked| > m then |unlinked| - m else 0
  }

  /**
   * A limit of at least the number of unlinked keys queries them all, a
   * smaller non-negative one queries that many; the queried and remaining
   * keys add up only for a non-negative limit, since a negative one drops
   * keys from the end and still reports more remaining than there are.
   */
  lemma QueriedMeaning(unlinked: seq<string>, limit: int)
    ensures Queried(unlinked, limit) == unlinked[..|Queried(unlinked, limit)|]
    ensures limit >= |unlinked| ==> Queried(unlinked, limit) == unlinked
    ensures 0 <= limit <= |unlinked| ==> |Queried(unlinked, limit)| == limit
    ensures limit >= 0 ==> |Queried(unlinked, limit)| + Remaining(unlinked, limit) == |unlinked|
    ensures limit < 0 && unlinked != [] ==> Remaining(unlinked, limit) > |unlinked|
  {
  }

  /** A zero limit queries nothing here, where the newer discovery reads it as "no limit". */
  lemma ZeroLimitDiffers(unlinked: seq<string>)
    ensures Queried(unlinked, 0) == []
    ensures D.Queried(unlinked, 0) == unlinked
  {
  }

  // ---- Links from the lookups ----

  /** `resultado.get('numero')` of a non-empty dict, kept when truthy. */
  function NumberOf(resultado: Value): (r: Option<Value>)
    ensures r.Some? <==> resultado.Obj? && "numero" in resultado.fields && TruthyValue(resultado.fields["numero"])
    ensures r.Some? ==> r.value == resultado.fields["numero"]
  {
    if resultado.Obj? && resultado.fields != map[] && "numero" in resultado.fields
       && TruthyValue(resultado.fields["numero"])
    then Some(resultado.fields["numero"])
    else None
  }

  /** One entry of `novos_vinculos`, and the row written for it. */
  datatype LinkRecord = LinkRecord(chave: string, numero: Value)

  /** The keys of a record list. */
  function KeysOf(a: seq<LinkRecord>): set<string>
  {
    if a == [] then {} else {a[0].chave} + KeysOf(a[1..])
  }

  /** No key occurs twice. */
  predicate DistinctKeys(a: seq<LinkRecord>)
  {
    a == [] || (a[0].chave !in KeysOf(a[1..]) && DistinctKeys(a[1..]))
  }

  /** The value of key `k` in a record list with distinct keys. */
  function ValueAt(a: seq<LinkRecord>, k: string): Value
    requires k in KeysOf(a)
  {
    if a[0].chave == k then a[0].numero
    else
      assert forall i :: 1 <= i < |a| ==> a[i] == a[1..][i - 1];
      ValueAt(a[1..], k)
  }

  /** `d[k] = v` on a dict that keeps insertion order: an existing key keeps its place, a new one goes last. */
  function Put(a: seq<LinkRecord>, k: string, v: Value): (r: seq<LinkRecord>)
    ensures KeysOf(r) == KeysOf(a) + {k}
    ensures DistinctKeys(a) ==> DistinctKeys(r)
    ensures |r| == |a| + (if k in KeysOf(a) then 0 else 1)
    ensures ValueAt(r, k) == v
    ensures DistinctKeys(a) ==> forall x :: x in KeysOf(a) && x != k ==> ValueAt(r, x) == ValueAt(a, x)
  {
    if a == [] then [LinkRecord(k, v)]
    else
      assert forall i :: 1 <= i < |a| ==> a[i] == a[1..][i - 1];
      if a[0].chave == k then
        var r := [LinkRecord(k, v)] + a[1..];
        assert r[1..] == a[1..];
        r
      else
        var t := Put(a[1..], k, v);
        var r := [a[0]] + t;
        assert r[1..] == t;
        assert forall i :: 1 <= i < |r| ==> r[i] == t[i - 1];
        r
  }

  /** `novos_vinculos` after the loop, in insertion order. */
  function Links(ks: seq<string>, lookup: string -> Value): seq<LinkRecord>
  {
    if ks == [] then []
    else
      var m := Links(ks[..|ks| - 1], lookup);
      var k := ks[|ks| - 1];
      match NumberOf(lookup(k))
      case Some(d) => Put(m, k, d)
      case None => m
  }

  /** `dues_para_baixar`. */
  function DuesFound(ks: seq<string>, lookup: string -> Value): set<Value>
  {
    if ks == [] then {}
    else
      var s := DuesFound(ks[..|ks| - 1], lookup);
      match NumberOf(lookup(ks[|ks| - 1]))
      case Some(d) => s + {d}
      case None => s
  }

  /** `nfs_sem_due_encontrada`. */
  function NotFound(ks: seq<string>, lookup: string -> Value): nat
  {
    CountWhere(ks, (k: string) => NumberOf(lookup(k)).None?)
  }

  /** Each key appears once among the links; a key is linked iff its lookup gave a number, and to that number. */
  lemma {:induction false} LinksMeaning(ks: seq<string>, lookup: string -> Value)
    ensures DistinctKeys(Links(ks, lookup))
    ensures forall k :: k in KeysOf(Links(ks, lookup)) <==> k in ks && NumberOf(lookup(k)).Some?
    ensures forall k :: k in KeysOf(Links(ks, lookup)) ==> ValueAt(Links(ks, lookup), k) == NumberOf(lookup(k)).value
  {
    if ks != [] {
      LinksMeaning(ks[..|ks| - 1], lookup);
      assert forall x :: x in ks <==> x in ks[..|ks| - 1] || x == ks[|ks| - 1];
    }
  }

  /** The DUEs to download are exactly the numbers some queried key is linked to. */
  lemma {:induction false} DuesAreLinked(ks: seq<string>, lookup: string -> Value)
    ensures forall d :: d in DuesFound(ks, lookup) <==> exists k :: k in ks && NumberOf(lookup(k)) == Some(d)
  {
    if ks != [] {
      DuesAreLinked(ks[..|ks| - 1], lookup);
      assert forall x :: x in ks <==> x in ks[..|ks| - 1] || x == ks[|ks| - 1];
    }
  }

  /** Links are found iff DUEs are, and every queried key is linked or counted as not found. */
  lemma {:induction false} FoundMeaning(ks: seq<string>, lookup: string -> Value)
    ensures Links(ks, lookup) == [] <==> DuesFound(ks, lookup) == {}
    ensures NotFound(ks, lookup) == |ks| <==> Links(ks, lookup) == []
    ensures NotFound(ks, lookup) == 0 <==> forall k :: k in ks ==> NumberOf(lookup(k)).Some?
  {
    if ks != [] {
      var init := ks[..|ks| - 1];
      FoundMeaning(init, lookup);
      assert forall x :: x in ks <==> x in init || x == ks[|ks| - 1];
      LinksMeaning(init, lookup);
    }
  }

  /** The lookup loop of `processar_novas_nfs`. */
  method CollectLinks(queried: seq<string>, lookup: string -> Value)
    returns (links: seq<LinkRecord>, dues: set<Value>, notFound: nat)
    ensures links == Links(queried, lookup)
    ensures dues == DuesFound(queried, lookup)
    ensures notFound == NotFound(queried, lookup)
  {
    links, dues, notFound := [], {}, 0;
    var i := 0;
    while i < |queried|
      invariant 0 <= i <= |queried|
      invariant links == Links(queried[..i], lookup)
      invariant dues == DuesFound(queried[..i], lookup)
      invariant notFound == NotFound(queried[..i], lookup)
    {
      var k := queried[i];
      var next := queried[..i + 1];
      assert next[..|next| - 1] == queried[..i] && next[|next| - 1] == k;
      var numero := NumberOf(lookup(k));
      if numero.Some? {
        links := Put(links, k, numero.value);
        dues := dues + {numero.value};
      } else {
        notFound := notFound + 1;
      }
      i := i + 1;
    }
    assert queried[..|queried|] == queried;
  }

  // ---- Saving the links ----

  /**
   * Where `salvar_novos_vinculos` can write: whether a connection is open,
   * the count the batch insert returns (None when it raises), the rows of
   * the existing link CSV (None when there is none), and whether writing
   * the CSV succeeds.
   */
  datatype LinkTarget = LinkTarget(connected: bool, inserted: Option<int>, csvRows: Option<seq<LinkRecord>>,
                                   csvWriteOk: bool)

  datatype LinkStore = NoLinks | StoredInDb(count: int) | StoredInCsv(rows: seq<LinkRecord>) | NotStored

  /** `salvar_novos_vinculos`: the insert, else the CSV with the new rows after the existing ones. */
  function SaveLinks(records: seq<LinkRecord>, t: LinkTarget): LinkStore
  {
    if records == [] then NoLinks
    else if t.connected && t.inserted.Some? && t.inserted.value > 0 then StoredInDb(t.inserted.value)
    else if !t.csvWriteOk then NotStored
    else StoredInCsv((if t.csvRows.Some? then t.csvRows.value else []) + records)
  }

  /**
   * Nothing is written for no links; the database is used iff its insert
   * reports a positive count, and otherwise the CSV keeps each existing row
   * ahead of every new one.
   */
  lemma SaveLinksMeaning(records: seq<LinkRecord>, t: LinkTarget)
    ensures SaveLinks(records, t).NoLinks? <==> records == []
    ensures SaveLinks(records, t).StoredInDb? <==>
              records != [] && t.connected && t.inserted.Some? && t.inserted.value > 0
    ensures SaveLinks(records, t).NotStored? <==>
              records != [] && !(t.connected && t.inserted.Some? && t.inserted.value > 0) && !t.csvWriteOk
    ensures SaveLinks(records, t).StoredInCsv? ==>
              var rows := SaveLinks(records, t).rows;
              var before := if t.csvRows.Some? then t.csvRows.value else [];
              |rows| == |before| + |records| && rows[..|before|] == before && rows[|before|..] == records
  {
  }

  // ---- Downloading the DUEs ----

  /** The downloads in order, or None when the normaliser raises: nothing in the loop catches it. */
  function LegacyFetchFrom(f: D.Fetching, order: seq<Value>, fetch: Value -> LR.PendingFetch,
                           process: LR.LegacyProcessor): Option<D.Fetching>
    decreases |order|
  {
    if order == [] then Some(f)
    else match LR.LegacyDownload(fetch(order[0]), process)
      case None => None
      case Some(t) =>
        var ok := R.HasTables(t);
        LegacyFetchFrom(f.(tables := if ok then C.Extend(f.tables, t.value) else f.tables,
                           ok := f.ok + (if ok then 1 else 0), erro := f.erro + (if ok then 0 else 1)),
                        order[1..], fetch, process)
  }

  /** A DUE whose tables are non-empty. */
  predicate Downloads(n: Value, fetch: Value -> LR.PendingFetch, process: LR.LegacyProcessor)
  {
    var d := LR.LegacyDownload(fetch(n), process);
    d.Some? && R.HasTables(d.value)
  }

  /**
   * The loop fails iff some DUE makes the normaliser raise; otherwise each
   * DUE moves exactly one counter, there is no rate limit, and the success
   * count grows iff some DUE yields tables.
   */
  lemma {:induction false} LegacyFetchMeaning(f: D.Fetching, order: seq<Value>, fetch: Value -> LR.PendingFetch,
                                               process: LR.LegacyProcessor)
    ensures LegacyFetchFrom(f, order, fetch, process).None? <==>
              exists i :: 0 <= i < |order| && LR.LegacyDownload(fetch(order[i]), process).None?
    ensures LegacyFetchFrom(f, order, fetch, process).Some? ==>
              var g := LegacyFetchFrom(f, order, fetch, process).value;
              g.ok + g.erro == f.ok + f.erro + |order| && g.rateLimited == f.rateLimited && g.ok >= f.ok
              && g.tables.Keys == f.tables.Keys
              && (g.ok > f.ok <==> exists i :: 0 <= i < |order| && Downloads(order[i], fetch, process))
    decreases |order|
  {
    if order != [] {
      match LR.LegacyDownload(fetch(order[0]), process)
      case None =>
      case Some(t) =>
        var ok := R.HasTables(t);
        var f1 := f.(tables := if ok then C.Extend(f.tables, t.value) else f.tables,
                     ok := f.ok + (if ok then 1 else 0), erro := f.erro + (if ok then 0 else 1));
        LegacyFetchMeaning(f1, order[1..], fetch, process);
        if ok {
          assert Downloads(order[0], fetch, process);
        }
        assert forall i :: 1 <= i < |order| ==> order[i] == order[1..][i - 1];
        assert forall i :: 0 <= i < |order[1..]| ==> order[1..][i] == order[i + 1];
    }
  }

  /** The download loop of `processar_novas_nfs`. */
  method LegacyDownloadDues(order: seq<Value>, fetch: Value -> LR.PendingFetch, process: LR.LegacyProcessor)
    returns (f: Option<D.Fetching>)
    ensures f == LegacyFetchFrom(D.StartFetching(), order, fetch, process)
  {
    var cur := D.StartFetching();
    var i := 0;
    while i < |order|
      invariant 0 <= i <= |order|
      invariant LegacyFetchFrom(cur, order[i..], fetch, process) == LegacyFetchFrom(D.StartFetching(), order, fetch, process)
    {
      assert order[i..][1..] == order[i + 1..];
      var d := LR.LegacyDownload(fetch(order[i]), process);
      if d.None? {
        return None;
      }
      var ok := R.HasTables(d.value);
      if ok {
        cur := cur.(tables := C.Extend(cur.tables, d.value.value), ok := cur.ok + 1);
      } else {
        cur := cur.(erro := cur.erro + 1);
      }
      i := i + 1;
    }
    return Some(cur);
  }

  // ---- The run ----

  /** What the run writes, in order. */
  datatype Action = Authenticate | StoreLinks(store: LinkStore) | Save(tables: N.Tables)

  datatype Ending = NoInvoices | AllLinked | NoCredentials | AuthFailed | ProcessorMissing | Crashed | Finished

  /** The final summary: keys, existing links, `max_consultas`, new links, DUEs, keys remaining, and the counters. */
  datatype Summary = Summary(nfs: nat, existing: nat, queried: int, newLinks: nat, dues: nat, remaining: int,
                             ok: nat, erro: nat)

  datatype Run = Run(actions: seq<Action>, ending: Ending, summary: Option<Summary>)

  /** Steps 6 to 9, once authenticated and with the processor imported. */
  function AfterLogin(nfs: nat, existing: nat, unlinked: seq<string>, limit: int, lookup: string -> Value,
                      target: LinkTarget, order: seq<Value>, fetch: Value -> LR.PendingFetch,
                      process: LR.LegacyProcessor): Run
  {
    var q := Queried(unlinked, limit);
    var links := Links(q, lookup);
    var dues := DuesFound(q, lookup);
    var store := if links == [] then [] else [StoreLinks(SaveLinks(links, target))];
    var summary := Summary(nfs, existing, MaxQueries(limit, |unlinked|), |links|, |dues|,
                           Remaining(unlinked, limit), 0, 0);
    if dues == {} then Run([Authenticate] + store, Finished, Some(summary))
    else match LegacyFetchFrom(D.StartFetching(), order, fetch, process)
      case None => Run([Authenticate] + store, Crashed, None)
      case Some(f) =>
        Run([Authenticate] + store + (if f.ok > 0 then [Save(f.tables)] else []), Finished,
            Some(summary.(ok := f.ok, erro := f.erro)))
  }

  /**
   * When `order` yields each DUE found once, as iterating the set does, a
   * run that finishes counts every DUE found as downloaded or failed, once.
   */
  lemma LegacyCovers(nfs: nat, existing: nat, unlinked: seq<string>, limit: int, lookup: string -> Value,
                     target: LinkTarget, order: seq<Value>, fetch: Value -> LR.PendingFetch,
                     process: LR.LegacyProcessor)
    requires multiset(order) == multiset(DuesFound(Queried(unlinked, limit), lookup))
    ensures var r := AfterLogin(nfs, existing, unlinked, limit, lookup, target, order, fetch, process);
            r.ending == Finished ==> r.summary.value.ok + r.summary.value.erro == r.summary.value.dues
  {
    var dues := DuesFound(Queried(unlinked, limit), lookup);
    CM.SetMultisetSize(dues);
    assert |order| == |multiset(order)| == |dues|;
    LegacyFetchMeaning(D.StartFetching(), order, fetch, process);
  }

  /**
   * `processar_novas_nfs`: `nfs` are the loaded keys, `existing` the links
   * already stored, `lookup` the by-key result of the processor, and
   * `order` the DUEs in the order the set yields them.
   */
  function LegacyDiscoveryRun(nfs: seq<string>, existing: map<string, string>, limit: int, credentials: bool,
                              authOk: bool, importOk: bool, lookup: string -> Value, target: LinkTarget,
                              order: seq<Value>, fetch: Value -> LR.PendingFetch, process: LR.LegacyProcessor): Run
  {
    var unlinked := D.Unlinked(nfs, existing);
    if nfs == [] then Run([], NoInvoices, None)
    else if unlinked == [] then Run([], AllLinked, None)
    else if !credentials then Run([], NoCredentials, None)
    else if !authOk then Run([Authenticate], AuthFailed, None)
    else if !importOk then Run([Authenticate], ProcessorMissing, None)
    else AfterLogin(|nfs|, |existing|, unlinked, limit, lookup, target, order, fetch, process)
  }

  /**
   * After login: the links are stored before anything is saved, a crash
   * saves no tables, the tables are saved iff some DUE downloaded, and the
   * summary counts the links of the queried keys.
   */
  lemma AfterLoginMeaning(nfs: nat, existing: nat, unlinked: seq<string>, limit: int, lookup: string -> Value,
                          target: LinkTarget, order: seq<Value>, fetch: Value -> LR.PendingFetch,
                          process: LR.LegacyProcessor)
    ensures var r := AfterLogin(nfs, existing, unlinked, limit, lookup, target, order, fetch, process);
            var q := Queried(unlinked, limit);
            r.actions[0] == Authenticate
            && (r.ending == Crashed || r.ending == Finished)
            && (Links(q, lookup) != [] <==> |r.actions| > 1 && r.actions[1] == StoreLinks(SaveLinks(Links(q, lookup), target)))
            && (r.ending == Crashed ==> forall a :: a in r.actions ==> !a.Save?)
            && (r.ending == Finished ==> r.summary.Some? && r.summary.value.newLinks == |Links(q, lookup)|)
            && ((exists a :: a in r.actions && a.Save?) <==>
                  r.ending == Finished && DuesFound(q, lookup) != {} && r.summary.value.ok > 0)
  {
    var q := Queried(unlinked, limit);
    FoundMeaning(q, lookup);
    var r := AfterLogin(nfs, existing, unlinked, limit, lookup, target, order, fetch, process);
    var store := if Links(q, lookup) == [] then [] else [StoreLinks(SaveLinks(Links(q, lookup), target))];
    if DuesFound(q, lookup) != {} {
      match LegacyFetchFrom(D.StartFetching(), order, fetch, process)
      case None =>
        assert r.actions == [Authenticate] + store;
      case Some(f) =>
        if f.ok > 0 {
          assert r.actions[|r.actions| - 1] == Save(f.tables);
        } else {
          assert r.actions == [Authenticate] + store;
        }
    } else {
      assert r.actions == [Authenticate] + store;
    }
  }

  /** A run that stops before the lookups writes nothing but, at most, the login. */
  lemma LegacyRunQuiet(nfs: seq<string>, existing: map<string, string>, limit: int, credentials: bool,
                       authOk: bool, importOk: bool, lookup: string -> Value, target: LinkTarget,
                       order: seq<Value>, fetch: Value -> LR.PendingFetch, process: LR.LegacyProcessor)
    ensures var r := LegacyDiscoveryRun(nfs, existing, limit, credentials, authOk, importOk, lookup, target, order,
                                        fetch, process);
            (r.ending == NoInvoices <==> nfs == [])
            && (r.ending == AllLinked <==> nfs != [] && forall k :: k in nfs ==> k in existing)
            && (r.ending != Finished && r.ending != Crashed ==> r.actions == [] || r.actions == [Authenticate])
            && (r.ending == Finished ==> r.summary.Some? && r.summary.value.nfs == |nfs|)
  {
    var unlinked := D.Unlinked(nfs, existing);
    if nfs != [] && D.Unlinked(nfs, existing) != [] {
      var k := unlinked[0];
      assert k in unlinked;
      if credentials && authOk && importOk {
        AfterLoginMeaning(|nfs|, |existing|, unlinked, limit, lookup, target, order, fetch, process);
      }
    }
  }

  /** Steps 6 to 9 as the script runs them. */
  method LegacyAfterLogin(nfs: nat, existing: nat, unlinked: seq<string>, limit: int, lookup: string -> Value,
                          target: LinkTarget, order: seq<Value>, fetch: Value -> LR.PendingFetch,
                          process: LR.LegacyProcessor)
    returns (r: Run)
    ensures r == AfterLogin(nfs, existing, unlinked, limit, lookup, target, order, fetch, process)
  {
    var q := PyPrefix(unlinked, MaxQueries(limit, |unlinked|));
    var links, dues, notFound := CollectLinks(q, lookup);
    var actions := [Authenticate];
    if links != [] {
      actions := actions + [StoreLinks(SaveLinks(links, target))];
    }
    var summary := Summary(nfs, existing, MaxQueries(limit, |unlinked|), |links|, |dues|,
                           Remaining(unlinked, limit), 0, 0);
    if dues == {} {
      return Run(actions, Finished, Some(summary));
    }
    var f := LegacyDownloadDues(order, fetch, process);
    if f.None? {
      return Run(actions, Crashed, None);
    }
    if f.value.ok > 0 {
      actions := actions + [Save(f.value.tables)];
    }
    return Run(actions, Finished, Some(summary.(ok := f.value.ok, erro := f.value.erro)));
  }

  /** `processar_novas_nfs` as the script runs it. */
  method LegacyDiscoverNew(nfs: seq<string>, existing: map<string, string>, limit: int, credentials: bool,
                           authOk: bool, importOk: bool, lookup: string -> Value, target: LinkTarget,
                           order: seq<Value>, fetch: Value -> LR.PendingFetch, process: LR.LegacyProcessor)
    returns (r: Run)
    ensures r == LegacyDiscoveryRun(nfs, existing, limit, credentials, authOk, importOk, lookup, target, order,
                                    fetch, process)
  {
    if nfs == [] {
      return Run([], NoInvoices, None);
    }
    var unlinked := D.Unlinked(nfs, existing);
    if unlinked == [] {
      return Run([], AllLinked, None);
    }
    if !credentials {
      return Run([], NoCredentials, None);
    }
    if !authOk {
      return Run([Authenticate], AuthFailed, None);
    }
    if !importOk {
      return Run([Authenticate], ProcessorMissing, None);
    }
    r := LegacyAfterLogin(|nfs|, |existing|, unlinked, limit, lookup, target, order, fetch, process);
  }
}
